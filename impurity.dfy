/**
 * The split criterion of the decision tree: `entropy` under each
 * `entropyRule`, the weighted score `evaluate` gives a 0/1 split, and the
 * strict-minimum scan of `bestCondition`. Scores are Java doubles (see
 * `Scores`), so the NaN of an empty Gini side and its effect on the scan
 * are part of the model.
 */
module Impurity {
  import opened Scores
  import opened Votes
  import opened Records

  /**
   * The `entropyRule` setting. Shannon's entropy is computed from the class
   * counts by a measure the caller supplies (the source uses `Math.log`).
   */
  datatype Rule = Gini | ClassError | Shannon(measure: seq<real> -> Score)

  /** `setEntropyRule`: "Gini" and "Class" select their rules, any other name Shannon's. */
  function RuleNamed(name: string, measure: seq<real> -> Score): (rule: Rule)
    ensures rule.Gini? <==> name == "Gini"
    ensures rule.ClassError? <==> name == "Class"
    ensures rule.Shannon? <==> name != "Gini" && name != "Class"
  {
    if name == "Gini" then Gini else if name == "Class" then ClassError else Shannon(measure)
  }

  /** The class proportions `f[j] / n` of a frequency table. */
  function Proportions(f: seq<real>, n: real): (p: seq<real>)
    requires n > 0.0
    ensures |p| == |f| && forall j :: 0 <= j < |f| ==> p[j] == f[j] / n
  {
    seq(|f|, j requires 0 <= j < |f| => f[j] / n)
  }

  function Square(x: real): real
  {
    x * x
  }

  /** The sum of squares of a sequence of proportions. */
  function SquareSum(p: seq<real>): real
  {
    if |p| == 0 then 0.0 else SquareSum(p[..|p| - 1]) + Square(p[|p| - 1])
  }

  lemma SquareSumPrefixStep(p: seq<real>, i: nat)
    requires i < |p|
    ensures SquareSum(p[..i + 1]) == SquareSum(p[..i]) + Square(p[i])
  {
    assert p[..i + 1][..i] == p[..i];
  }

  lemma SquareBounds(x: real, m: real)
    requires 0.0 <= x <= m
    ensures 0.0 <= Square(x) <= m * x
  {
    ProductNonNegative(x, x);
    ProductNonNegative(x, m - x);
  }

  lemma ProductNonNegative(a: real, b: real)
    requires 0.0 <= a && 0.0 <= b
    ensures 0.0 <= a * b
  {
  }

  lemma ProductPositive(a: real, b: real)
    requires 0.0 < a && 0.0 < b
    ensures 0.0 < a * b
  {
  }

  /** Proportions add up to the table's total over `n`. */
  lemma {:induction false} SumProportions(f: seq<real>, n: real)
    requires n > 0.0
    ensures Sum(Proportions(f, n)) == Sum(f) / n
  {
    if |f| > 0 {
      var k := |f| - 1;
      assert Proportions(f, n)[..k] == Proportions(f[..k], n);
      SumProportions(f[..k], n);
      assert Sum(f[..k]) / n + f[k] / n == (Sum(f[..k]) + f[k]) / n;
    }
  }

  /** With entries in `[0, m]` the sum of squares is at most `m` times the sum. */
  lemma {:induction false} SquareSumBound(p: seq<real>, m: real)
    requires forall j :: 0 <= j < |p| ==> 0.0 <= p[j] <= m
    ensures 0.0 <= SquareSum(p) <= m * Sum(p)
  {
    if |p| > 0 {
      var k := |p| - 1;
      SquareSumBound(p[..k], m);
      SquareBounds(p[k], m);
      assert m * Sum(p[..k]) + m * p[k] == m * (Sum(p[..k]) + p[k]);
    }
  }

  lemma SquareNonNegative(x: real)
    ensures 0.0 <= Square(x)
  {
  }

  lemma SquareAtLeast(x: real, e: real)
    requires 0.0 < e <= x
    ensures e * x <= Square(x)
  {
    ProductNonNegative(x, x - e);
  }

  lemma SquarePositive(x: real)
    requires 0.0 < x
    ensures 0.0 < Square(x)
  {
    SquareAtLeast(x, x / 2.0);
    ProductPositive(x / 2.0, x);
  }

  lemma {:induction false} SquareSumNonNegative(p: seq<real>)
    ensures 0.0 <= SquareSum(p)
  {
    if |p| > 0 {
      SquareSumNonNegative(p[..|p| - 1]);
      SquareNonNegative(p[|p| - 1]);
    }
  }

  /** One positive entry makes the sum of squares positive. */
  lemma {:induction false} SquareSumPositive(p: seq<real>, i: nat)
    requires i < |p| && 0.0 < p[i]
    requires forall j :: 0 <= j < |p| ==> 0.0 <= p[j]
    ensures 0.0 < SquareSum(p)
  {
    var k := |p| - 1;
    if i < k {
      SquareSumPositive(p[..k], i);
      SquareNonNegative(p[k]);
    } else {
      SquarePositive(p[k]);
      SquareSumNonNegative(p[..k]);
    }
  }

  /** A sequence with one non-zero entry `p[k]` has sum of squares `p[k]^2`. */
  lemma {:induction false} SquareSumOneEntry(p: seq<real>, k: nat)
    requires forall j :: 0 <= j < |p| && j != k ==> p[j] == 0.0
    ensures SquareSum(p) == if k < |p| then Square(p[k]) else 0.0
  {
    if |p| > 0 {
      SquareSumOneEntry(p[..|p| - 1], k);
    }
  }

  lemma DivMonotonic(x: real, y: real, n: real)
    requires n > 0.0
    ensures x <= y ==> x / n <= y / n
    ensures x < y ==> x / n < y / n
  {
    assert y / n - x / n == (y - x) / n;
  }

  lemma DivSelf(n: real)
    requires n > 0.0
    ensures n / n == 1.0
  {
  }

  lemma DivAtLeastOne(x: real, n: real)
    requires n > 0.0 && 1.0 <= x / n
    ensures n <= x
  {
    if x < n {
      DivMonotonic(x, n, n);
      DivSelf(n);
    }
  }

  /**
   * The proportions of a table of counts in `[0, n]` summing to `n` lie in
   * `[0, 1]`, sum to 1, and their squares sum to at most 1.
   */
  lemma ProportionsBounds(f: seq<real>, n: real)
    requires n > 0.0 && Sum(f) == n
    requires forall j :: 0 <= j < |f| ==> 0.0 <= f[j] <= n
    ensures var p := Proportions(f, n);
      Sum(p) == 1.0 && (forall j :: 0 <= j < |p| ==> 0.0 <= p[j] <= 1.0) && SquareSum(p) <= 1.0
  {
    var p := Proportions(f, n);
    assert Sum(p) == 1.0 by {
      SumProportions(f, n);
      DivSelf(n);
    }
    forall j | 0 <= j < |f|
      ensures 0.0 <= p[j] <= 1.0
    {
      DivMonotonic(0.0, f[j], n);
        DivMonotonic(f[j], n, n);
      DivSelf(n);
    }
    SquareSumBound(p, 1.0);
  }

  /**
   * If every proportion is at most `most / n` and the squares sum to 1, some
   * count reaches `n`.
   */
  lemma SquareSumOneNeedsAll(f: seq<real>, n: real, most: real)
    requires n > 0.0 && Sum(f) == n
    requires forall j :: 0 <= j < |f| ==> 0.0 <= f[j] <= most
    requires SquareSum(Proportions(f, n)) == 1.0
    ensures n <= most
  {
    var p := Proportions(f, n);
    assert Sum(p) == 1.0 by {
      SumProportions(f, n);
      DivSelf(n);
    }
    forall j | 0 <= j < |f|
      ensures 0.0 <= p[j] <= most / n
    {
      DivMonotonic(0.0, f[j], n);
      DivMonotonic(f[j], most, n);
    }
    SquareSumBound(p, most / n);
    DivAtLeastOne(most, n);
  }

  /** The class-count table of a non-empty labelled list, as proportions. */
  function ClassProportions(records: seq<Record>, c: nat): (p: seq<real>)
    requires |records| > 0
    ensures |p| == c
  {
    Proportions(Counts(records, c), |records| as real)
  }

  /** Every count lies between 0 and the majority count, which is at most `n`. */
  lemma CountsBounds(records: seq<Record>, c: nat)
    requires Labelled(records, c) && |records| > 0
    ensures c >= 1
    ensures forall j :: 0 <= j < c ==>
      0.0 <= Counts(records, c)[j] <= Majority(records, c).1 as real <= |records| as real
  {
    assert records[0] in records;
    var m := Majority(records, c);
    forall j | 0 <= j < c
      ensures Counts(records, c)[j] <= m.1 as real
    {
      assert Counts(records, c)[j] == Occurrences(Labels(records), j + 1) as real;
    }
  }

  /** A table with a positive count has a positive sum of squared proportions. */
  lemma ProportionsPositive(f: seq<real>, n: real, w: nat)
    requires n > 0.0 && w < |f| && 0.0 < f[w]
    requires forall j :: 0 <= j < |f| ==> 0.0 <= f[j]
    ensures 0.0 < SquareSum(Proportions(f, n))
  {
    var p := Proportions(f, n);
    forall j | 0 <= j < |f|
      ensures 0.0 <= p[j]
    {
      DivMonotonic(0.0, f[j], n);
    }
    DivMonotonic(0.0, f[w], n);
    SquareSumPositive(p, w);
  }

  /** The squared class proportions of a non-empty labelled list sum to a value in `(0, 1]`. */
  lemma GiniSquareSumBounds(records: seq<Record>, c: nat)
    requires Labelled(records, c) && |records| > 0
    ensures 0.0 < SquareSum(ClassProportions(records, c)) <= 1.0
  {
    var f := Counts(records, c);
    CountsSum(records, c);
    CountsBounds(records, c);
    ProportionsBounds(f, |records| as real);
    var m := Majority(records, c);
    assert f[m.0 - 1] == m.1 as real;
    ProportionsPositive(f, |records| as real, m.0 - 1);
  }

  /** A pure list has one class of proportion 1, so its squares sum to 1. */
  lemma PureSquareSum(records: seq<Record>, c: nat)
    requires Labelled(records, c) && |records| > 0 && IsPure(records)
    ensures SquareSum(ClassProportions(records, c)) == 1.0
  {
    assert records[0] in records;
    var n := |records| as real;
    var p := ClassProportions(records, c);
    var k := records[0].className - 1;
    DivSelf(n);
    forall j | 0 <= j < c
      ensures p[j] == if j == k then 1.0 else 0.0
    {
      PureOccurrences(records, j + 1);
    }
    SquareSumOneEntry(p, k);
    assert Square(1.0) == 1.0;
  }

  /** Squares summing to 1 leave no room for a second class. */
  lemma SquareSumOneIsPure(records: seq<Record>, c: nat)
    requires Labelled(records, c) && |records| > 0
    requires SquareSum(ClassProportions(records, c)) == 1.0
    ensures IsPure(records)
  {
    var m := Majority(records, c);
    CountsSum(records, c);
    CountsBounds(records, c);
    SquareSumOneNeedsAll(Counts(records, c), |records| as real, m.1 as real);
    MajorityAllIsPure(records, c);
  }

  /** The squared proportions sum to 1 exactly when the list is pure. */
  lemma GiniSquareSumOne(records: seq<Record>, c: nat)
    requires Labelled(records, c) && |records| > 0
    ensures SquareSum(ClassProportions(records, c)) == 1.0 <==> IsPure(records)
  {
    if SquareSum(ClassProportions(records, c)) == 1.0 {
      SquareSumOneIsPure(records, c);
    }
    if IsPure(records) {
      PureSquareSum(records, c);
    }
  }

  /**
   * The "Gini" rule, `1 - sum of (count_j / n)^2`. On an empty list each
   * proportion is `0.0 / 0`, so the result is NaN unless there are no classes.
   */
  function GiniIndex(records: seq<Record>, c: nat): (g: Score)
    requires Labelled(records, c)
    ensures g.NaN? <==> |records| == 0 && c > 0
    ensures |records| == 0 && c == 0 ==> g == Num(1.0)
    ensures |records| > 0 ==> 0.0 <= g.value < 1.0
    ensures |records| > 0 ==> (g.value == 0.0 <==> IsPure(records))
  {
    if |records| == 0 then
      (if c == 0 then Num(1.0) else NaN)
    else
      GiniSquareSumBounds(records, c);
      GiniSquareSumOne(records, c);
      Num(1.0 - SquareSum(ClassProportions(records, c)))
  }

  /** One step of the sum-of-squares inequality: adding `x` to `m` entries. */
  lemma SquareSumStep(m: real, q: real, s: real, x: real)
    requires 0.0 <= m && 0.0 <= q && s * s <= m * q && (m == 0.0 ==> s == 0.0)
    ensures (s + x) * (s + x) <= (m + 1.0) * (q + x * x)
  {
    if m > 0.0 {
      var d := s - m * x;
      assert 0.0 <= d * d;
      assert m * (2.0 * s * x) <= m * (q + m * x * x) by {
        assert d * d == s * s - m * (2.0 * s * x) + m * (m * x * x);
      }
      assert 2.0 * s * x <= q + m * x * x;
    }
  }

  /** The square of a sum of `n` entries is at most `n` times their sum of squares. */
  lemma {:induction false} SquareSumAtLeast(p: seq<real>)
    ensures Sum(p) * Sum(p) <= |p| as real * SquareSum(p)
  {
    if |p| > 0 {
      var k := |p| - 1;
      SquareSumAtLeast(p[..k]);
      SquareSumNonNegative(p[..k]);
      SquareSumStep(k as real, SquareSum(p[..k]), Sum(p[..k]), p[k]);
    }
  }

  /**
   * On a non-empty list with `c` classes the Gini index is at most
   * `1 - 1/c`, the value of an even spread over the classes.
   */
  lemma GiniAtMost(records: seq<Record>, c: nat)
    requires Labelled(records, c) && |records| > 0
    ensures c >= 1 && GiniIndex(records, c).value <= 1.0 - 1.0 / c as real
  {
    CountsSum(records, c);
    CountsBounds(records, c);
    ProportionsSpread(Counts(records, c), |records| as real);
  }

  /** The squared proportions of a table of `m` counts summing to `n` add up to at least `1/m`. */
  lemma ProportionsSpread(f: seq<real>, n: real)
    requires n > 0.0 && Sum(f) == n && |f| >= 1
    requires forall j :: 0 <= j < |f| ==> 0.0 <= f[j] <= n
    ensures 1.0 - SquareSum(Proportions(f, n)) <= 1.0 - 1.0 / |f| as real
  {
    var p := Proportions(f, n);
    ProportionsBounds(f, n);
    SquareSumAtLeast(p);
    ReciprocalAtMost(|f| as real, SquareSum(p));
  }

  /** When `n * q` is at least 1, `1 - q` is at most `1 - 1/n`. */
  lemma ReciprocalAtMost(n: real, q: real)
    requires 1.0 <= n && 1.0 * 1.0 <= n * q
    ensures 1.0 - q <= 1.0 - 1.0 / n
  {
    DivMonotonic(1.0, n * q, n);
    assert n * q / n == q;
  }

  /**
   * The "Class" rule: one minus the largest raw class count (a count, not a
   * proportion), so it is 1 on an empty list and at most 0 otherwise.
   */
  function ClassErrorIndex(records: seq<Record>, c: nat): (e: Score)
    requires Labelled(records, c) && c >= 1
    ensures e.Num?
    ensures forall x :: 1 <= x <= c ==> Occurrences(Labels(records), x) as real <= 1.0 - e.value
    ensures exists x :: 1 <= x <= c && Occurrences(Labels(records), x) as real == 1.0 - e.value
    ensures |records| == 0 ==> e.value == 1.0
    ensures |records| > 0 ==> e.value <= 0.0
  {
    Num(1.0 - Majority(records, c).1 as real)
  }

  /** On a pure list the "Class" rule gives one minus the size of the list. */
  lemma ClassErrorPure(records: seq<Record>, c: nat)
    requires Labelled(records, c) && c >= 1 && |records| > 0 && IsPure(records)
    ensures ClassErrorIndex(records, c).value == 1.0 - |records| as real
  {
    PureMajority(records, c);
  }

  /**
   * `entropy(records)` under the given rule. On a non-empty list the Gini
   * index lies in [0, 1), and on an empty one it is NaN; the class error
   * is never NaN, is 1 on an empty list and at most 0 otherwise.
   */
  function Impurity(rule: Rule, records: seq<Record>, c: nat): (e: Score)
    requires Labelled(records, c) && (rule.ClassError? ==> c >= 1)
    ensures rule.Gini? && |records| > 0 ==> e.Num? && 0.0 <= e.value < 1.0
    ensures rule.Gini? && |records| == 0 ==> (e.NaN? <==> c > 0)
    ensures rule.ClassError? ==> e.Num? && (if |records| == 0 then e.value == 1.0 else e.value <= 0.0)
  {
    match rule
    case Gini => GiniIndex(records, c)
    case ClassError => ClassErrorIndex(records, c)
    case Shannon(measure) => measure(Counts(records, c))
  }

  /**
   * `evaluate(records, a)`: the impurities of the value-0 and value-1 sides,
   * each weighted by its share of the records.
   */
  function SplitScore(rule: Rule, records: seq<Record>, c: nat, a: int): (s: Score)
    requires Labelled(records, c) && HasAttribute(records, a) && (rule.ClassError? ==> c >= 1)
    ensures |records| == 0 ==> s.NaN?
  {
    var left, right := Collected(records, a, 0), Collected(records, a, 1);
    SubListProperties(left, records, c);
    SubListProperties(right, records, c);
    Plus(Scale(Impurity(rule, left, c), |left|, |records|), Scale(Impurity(rule, right, c), |right|, |records|))
  }

  /**
   * Under Gini a split is scored (not NaN) exactly when both sides are
   * non-empty, and then its score lies in `[0, 1)`.
   */
  lemma GiniSplit(records: seq<Record>, c: nat, a: int)
    requires Labelled(records, c) && HasAttribute(records, a) && Binary(records) && |records| > 0
    ensures SplitScore(Gini, records, c, a).Num? <==> |Collected(records, a, 0)| > 0 && |Collected(records, a, 1)| > 0
    ensures SplitScore(Gini, records, c, a).Num? ==> 0.0 <= SplitScore(Gini, records, c, a).value < 1.0
  {
    assert records[0] in records;
    var gl, gr, l, r := SplitScoreSides(Gini, records, c, a);
    GiniSide(Collected(records, a, 0), c);
    GiniSide(Collected(records, a, 1), c);
    WeightedGini(gl, gr, l, r, SplitScore(Gini, records, c, a));
  }

  /** The Gini impurity of one side, as `WeightedGini` needs it. */
  lemma GiniSide(records: seq<Record>, c: nat)
    requires Labelled(records, c) && c >= 1
    ensures Impurity(Gini, records, c).NaN? <==> |records| == 0
    ensures Impurity(Gini, records, c).Num? ==> 0.0 <= Impurity(Gini, records, c).value < 1.0
  {
  }

  /**
   * `evaluate` weighs the impurities `gl` and `gr` of the two sides by
   * their sizes `l` and `r`, which add up to the whole list.
   */
  lemma SplitScoreSides(rule: Rule, records: seq<Record>, c: nat, a: int) returns (gl: Score, gr: Score, l: nat, r: nat)
    requires Labelled(records, c) && HasAttribute(records, a) && Binary(records) && (rule.ClassError? ==> c >= 1)
    ensures Labelled(Collected(records, a, 0), c) && Labelled(Collected(records, a, 1), c)
    ensures l == |Collected(records, a, 0)| && r == |Collected(records, a, 1)| && l + r == |records|
    ensures gl == Impurity(rule, Collected(records, a, 0), c) && gr == Impurity(rule, Collected(records, a, 1), c)
    ensures SplitScore(rule, records, c, a) == Plus(Scale(gl, l, l + r), Scale(gr, r, l + r))
  {
    CollectedSizes(records, a);
    gl, gr := SplitScoreUnfold(rule, records, c, a);
    l, r := |Collected(records, a, 0)|, |Collected(records, a, 1)|;
    SameWhole(l + r, |records|);
  }

  /** `evaluate`'s weighted average, with the impurities of the two sides named. */
  lemma SplitScoreUnfold(rule: Rule, records: seq<Record>, c: nat, a: int) returns (gl: Score, gr: Score)
    requires Labelled(records, c) && HasAttribute(records, a) && (rule.ClassError? ==> c >= 1)
    ensures Labelled(Collected(records, a, 0), c) && Labelled(Collected(records, a, 1), c)
    ensures gl == Impurity(rule, Collected(records, a, 0), c) && gr == Impurity(rule, Collected(records, a, 1), c)
    ensures SplitScore(rule, records, c, a) ==
      Plus(Scale(gl, |Collected(records, a, 0)|, |records|), Scale(gr, |Collected(records, a, 1)|, |records|))
  {
    var left, right := Collected(records, a, 0), Collected(records, a, 1);
    SubListProperties(left, records, c);
    SubListProperties(right, records, c);
    gl, gr := Impurity(rule, left, c), Impurity(rule, right, c);
  }

  lemma SameWhole(n: nat, m: nat)
    requires n == m
    ensures forall s: Score, k: nat :: k <= n ==> Scale(s, k, n) == Scale(s, k, m)
  {
  }

  /** The weighted sum of two Gini values of sides of sizes `l` and `r`. */
  lemma WeightedGini(gl: Score, gr: Score, l: nat, r: nat, s: Score)
    requires l + r > 0
    requires s == Plus(Scale(gl, l, l + r), Scale(gr, r, l + r))
    requires gl.NaN? <==> l == 0
    requires gr.NaN? <==> r == 0
    requires gl.Num? ==> 0.0 <= gl.value < 1.0
    requires gr.Num? ==> 0.0 <= gr.value < 1.0
    ensures s.Num? <==> l > 0 && r > 0
    ensures s.Num? ==> 0.0 <= s.value < 1.0
  {
    if l > 0 && r > 0 {
      ScaledBelowOne(gl.value, gr.value, l, r);
    }
  }

  lemma ScaledBelowOne(gl: real, gr: real, l: nat, r: nat)
    requires 0 < l && 0 < r && 0.0 <= gl < 1.0 && 0.0 <= gr < 1.0
    ensures 0.0 <= Scale(Num(gl), l, l + r).value + Scale(Num(gr), r, l + r).value < 1.0
  {
    WeightedCountsBelowOne(gl, gr, l, r);
    ShareValue(gl, l, l + r);
    ShareValue(gr, r, l + r);
  }

  lemma WeightedCountsBelowOne(gl: real, gr: real, l: nat, r: nat)
    requires 0 < l && 0 < r && 0.0 <= gl < 1.0 && 0.0 <= gr < 1.0
    ensures 0.0 <= gl * l as real / (l + r) as real + gr * r as real / (l + r) as real < 1.0
  {
    WeightedBelowOne(gl, gr, l as real, r as real, (l + r) as real);
  }

  /** Two values below 1, weighted by shares `l / n` and `r / n` of a whole `n = l + r`, stay below 1. */
  lemma WeightedBelowOne(gl: real, gr: real, l: real, r: real, n: real)
    requires 0.0 <= gl < 1.0 && 0.0 <= gr < 1.0 && 0.0 < l && 0.0 < r && l + r == n
    ensures 0.0 <= gl * l / n + gr * r / n < 1.0
  {
    ProductBelow(gl, l);
    ProductBelow(gr, r);
    SharesBelowOne(gl * l, gr * r, l, r, n);
  }

  lemma ShareValue(g: real, k: nat, n: nat)
    requires 0 < k <= n
    ensures Scale(Num(g), k, n).value == (g * k as real) / n as real
  {
  }

  lemma ProductBelow(g: real, l: real)
    requires 0.0 <= g < 1.0 && 0.0 < l
    ensures 0.0 <= g * l < l
  {
    ProductPositive(1.0 - g, l);
    ProductNonNegative(g, l);
  }

  /** Two shares `a / n` and `b / n` of parts below `l` and `r`, with `l + r = n`, stay below 1. */
  lemma SharesBelowOne(a: real, b: real, l: real, r: real, n: real)
    requires 0.0 <= a < l && 0.0 <= b < r && l + r == n
    ensures 0.0 <= a / n + b / n < 1.0
  {
    assert a / n + b / n == (a + b) / n;
    DivMonotonic(0.0, a + b, n);
    DivMonotonic(a + b, n, n);
    DivSelf(n);
  }

  /**
   * Under the "Class" rule a split of a non-empty list is always scored,
   * and its score is never positive.
   */
  lemma ClassErrorSplit(records: seq<Record>, c: nat, a: int)
    requires Labelled(records, c) && c >= 1 && HasAttribute(records, a) && Binary(records) && |records| > 0
    ensures var s := SplitScore(ClassError, records, c, a); s.Num? && s.value <= 0.0
  {
    var el, er, l, r := SplitScoreSides(ClassError, records, c, a);
    ClassErrorSide(Collected(records, a, 0), c);
    ClassErrorSide(Collected(records, a, 1), c);
    WeightedNonPositive(el, er, l, r, SplitScore(ClassError, records, c, a));
  }

  /** The "Class" impurity of one side, as `WeightedNonPositive` needs it. */
  lemma ClassErrorSide(records: seq<Record>, c: nat)
    requires Labelled(records, c) && c >= 1
    ensures Impurity(ClassError, records, c).Num?
    ensures |records| > 0 ==> Impurity(ClassError, records, c).value <= 0.0
  {
  }

  /** The weighted sum of two values, each non-positive unless its side is empty. */
  lemma WeightedNonPositive(el: Score, er: Score, l: nat, r: nat, s: Score)
    requires l + r > 0 && el.Num? && er.Num?
    requires s == Plus(Scale(el, l, l + r), Scale(er, r, l + r))
    requires l > 0 ==> el.value <= 0.0
    requires r > 0 ==> er.value <= 0.0
    ensures s.Num? && s.value <= 0.0
  {
    if l > 0 {
      ShareNonPositive(el.value, l as real, (l + r) as real);
    }
    if r > 0 {
      ShareNonPositive(er.value, r as real, (l + r) as real);
    }
  }

  lemma ShareNonPositive(e: real, k: real, n: real)
    requires e <= 0.0 && 0.0 <= k && 0.0 < n
    ensures e * k / n <= 0.0
  {
    ProductNonNegative(-e, k);
    DivMonotonic(e * k, 0.0, n);
  }

  /**
   * The position `bestCondition` settles on: the scan keeps its candidate
   * unless a later score is strictly smaller, and `<` is false with NaN.
   */
  function MinIndex(scores: seq<Score>): (m: nat)
    requires |scores| > 0
    ensures m < |scores|
    ensures scores[0].NaN? ==> m == 0
    ensures scores[0].Num? ==> scores[m].Num?
    ensures scores[m].Num? ==> forall j :: 0 <= j < |scores| && scores[j].Num? ==> scores[m].value <= scores[j].value
    ensures scores[m].Num? ==> forall j :: 0 <= j < m && scores[j].Num? ==> scores[m].value < scores[j].value
  {
    if |scores| == 1 then 0
    else
      var m := MinIndex(scores[..|scores| - 1]);
      if Less(scores[|scores| - 1], scores[m]) then |scores| - 1 else m
  }

  /** The scan's minimum is the only position with the properties `MinIndex` promises. */
  lemma MinIndexUnique(scores: seq<Score>, m: nat)
    requires m < |scores|
    requires scores[0].NaN? ==> m == 0
    requires scores[0].Num? ==> scores[m].Num?
    requires scores[m].Num? ==> forall j :: 0 <= j < |scores| && scores[j].Num? ==> scores[m].value <= scores[j].value
    requires scores[m].Num? ==> forall j :: 0 <= j < m && scores[j].Num? ==> scores[m].value < scores[j].value
    ensures MinIndex(scores) == m
  {
  }

  /**
   * The state of `bestCondition`'s scan after the first `i` positions: `m`
   * is where the first Num minimum so far sits, or 0 when the first score
   * is NaN.
   */
  predicate Scanned(scores: seq<Score>, i: nat, m: nat)
  {
    m < |scores| && m <= i <= |scores| &&
    (scores[0].NaN? ==> m == 0) &&
    (scores[0].Num? ==> scores[m].Num?) &&
    (scores[m].Num? ==> forall j :: 0 <= j < i && scores[j].Num? ==> scores[m].value <= scores[j].value) &&
    (scores[m].Num? ==> forall j :: 0 <= j < m && scores[j].Num? ==> scores[m].value < scores[j].value)
  }

  /** One step of the scan keeps `Scanned`. */
  lemma ScanStep(scores: seq<Score>, i: nat, m: nat)
    requires i < |scores| && Scanned(scores, i, m)
    ensures Scanned(scores, i + 1, if Less(scores[i], scores[m]) then i else m)
  {
  }

  /** A finished scan lands on `MinIndex`. */
  lemma ScanDone(scores: seq<Score>, m: nat)
    requires Scanned(scores, |scores|, m)
    ensures MinIndex(scores) == m
  {
    MinIndexUnique(scores, m);
  }

  /** Every candidate attribute splits the records. */
  predicate HasAttributes(records: seq<Record>, attrs: seq<int>)
  {
    forall a :: a in attrs ==> HasAttribute(records, a)
  }

  /** The split score of each candidate attribute, in list order. */
  function SplitScores(rule: Rule, records: seq<Record>, c: nat, attrs: seq<int>): (s: seq<Score>)
    requires Labelled(records, c) && HasAttributes(records, attrs) && (rule.ClassError? ==> c >= 1)
    ensures |s| == |attrs|
    ensures forall i :: 0 <= i < |attrs| ==> s[i] == SplitScore(rule, records, c, attrs[i])
  {
    seq(|attrs|, i requires 0 <= i < |attrs| => SplitScore(rule, records, c, attrs[i]))
  }

  /**
   * `bestCondition`: the attribute at the position of the scan's minimum
   * over the attributes' scores. A NaN first score is never replaced;
   * otherwise the attribute has a smallest Num score.
   */
  function BestAttribute(attrs: seq<int>, scores: seq<Score>): (a: int)
    requires |attrs| == |scores| > 0
    ensures a in attrs
    ensures scores[0].NaN? ==> a == attrs[0]
    ensures scores[0].Num? ==>
      exists i :: 0 <= i < |attrs| && a == attrs[i] && scores[i].Num? &&
                  (forall j :: 0 <= j < |scores| && scores[j].Num? ==> scores[i].value <= scores[j].value) &&
                  (forall j :: 0 <= j < i && scores[j].Num? ==> scores[i].value < scores[j].value)
  {
    var m := MinIndex(scores);
    assert scores[0].Num? ==> scores[m].Num?;
    attrs[m]
  }

  /** A class-frequency table, as the `frequency` arrays of `entropy` hold it. */
  method ClassFrequencies(records: seq<Record>, c: nat) returns (frequency: array<Score>)
    requires Labelled(records, c)
    ensures fresh(frequency) && frequency.Length == c
    ensures forall j :: 0 <= j < c ==> frequency[j] == Num(Counts(records, c)[j])
  {
    frequency := new Score[c];
    var i := 0;
    while i < c
      invariant 0 <= i <= c
      invariant forall j :: 0 <= j < i ==> frequency[j] == Num(0.0)
    {
      frequency[i] := Num(0.0);
      i := i + 1;
    }
    CountClasses(records, c, frequency);
  }

  /** The counting loop of `entropy`: each record adds one to its class's entry. */
  method CountClasses(records: seq<Record>, c: nat, frequency: array<Score>)
    requires Labelled(records, c) && frequency.Length == c
    requires forall j :: 0 <= j < c ==> frequency[j] == Num(0.0)
    modifies frequency
    ensures forall j :: 0 <= j < c ==> frequency[j] == Num(Counts(records, c)[j])
  {
    ghost var labels := Labels(records);
    var i := 0;
    while i < |records|
      invariant 0 <= i <= |records|
      invariant forall j :: 0 <= j < c ==> frequency[j] == Num(Occurrences(labels[..i], j + 1) as real)
    {
      assert records[i] in records;
      var k := records[i].className - 1;
      forall x | 1 <= x <= c
        ensures Occurrences(labels[..i + 1], x) == Occurrences(labels[..i], x) + (if x == k + 1 then 1 else 0)
      {
        OccurrencesPrefixStep(labels, i, x);
      }
      frequency[k] := Plus(frequency[k], Num(1.0));
      i := i + 1;
    }
    assert labels[..i] == labels;
  }

  /** `entropy(records)`: the rule's impurity, computed with the source's loops. */
  method Entropy(rule: Rule, records: seq<Record>, c: nat) returns (e: Score)
    requires Labelled(records, c) && (rule.ClassError? ==> c >= 1)
    ensures e == Impurity(rule, records, c)
  {
    var frequency := ClassFrequencies(records, c);
    match rule {
      case Gini =>
        e := GiniEntropy(records, c, frequency);
      case ClassError =>
        e := ClassErrorEntropy(records, c, frequency);
      case Shannon(measure) =>
        var counts := seq(c, j requires 0 <= j < c reads frequency => if frequency[j].Num? then frequency[j].value else 0.0);
        assert counts == Counts(records, c);
        e := measure(counts);
    }
  }

  /** The "Gini" branch of `entropy`: normalise the table in place, then take one minus the sum of squares. */
  method GiniEntropy(records: seq<Record>, c: nat, frequency: array<Score>) returns (e: Score)
    requires Labelled(records, c) && frequency.Length == c
    requires forall j :: 0 <= j < c ==> frequency[j] == Num(Counts(records, c)[j])
    modifies frequency
    ensures e == GiniIndex(records, c)
  {
    ghost var f := Counts(records, c);
    var n := |records|;
    var i := 0;
    while i < c
      invariant 0 <= i <= c
      invariant forall j :: 0 <= j < i ==> frequency[j] == Divide(Num(f[j]), n)
      invariant forall j :: i <= j < c ==> frequency[j] == Num(f[j])
    {
      frequency[i] := Divide(frequency[i], n);
      i := i + 1;
    }
    var sum := SumOfSquares(frequency, if n > 0 then ClassProportions(records, c) else f);
    e := Minus(Num(1.0), sum);
    if n > 0 {
      assert e == Num(1.0 - SquareSum(ClassProportions(records, c)));
    }
  }

  /**
   * The summing loop of the "Gini" branch: the sum of the squared entries,
   * NaN as soon as one entry is NaN.
   */
  method SumOfSquares(frequency: array<Score>, ghost p: seq<real>) returns (sum: Score)
    requires |p| == frequency.Length
    requires (forall j :: 0 <= j < |p| ==> frequency[j] == Num(p[j])) || (forall j :: 0 <= j < |p| ==> frequency[j].NaN?)
    ensures (forall j :: 0 <= j < |p| ==> frequency[j] == Num(p[j])) ==> sum == Num(SquareSum(p))
    ensures |p| > 0 && (forall j :: 0 <= j < |p| ==> frequency[j].NaN?) ==> sum.NaN?
  {
    sum := Num(0.0);
    var i := 0;
    while i < frequency.Length
      invariant 0 <= i <= frequency.Length
      invariant (forall j :: 0 <= j < |p| ==> frequency[j] == Num(p[j])) ==> sum == Num(SquareSum(p[..i]))
      invariant i > 0 && (forall j :: 0 <= j < |p| ==> frequency[j].NaN?) ==> sum.NaN?
    {
      SquareSumPrefixStep(p, i);
      sum := Plus(sum, Times(frequency[i], frequency[i]));
      i := i + 1;
    }
    assert p[..i] == p;
  }

  /** The "Class" branch of `entropy`: one minus the largest raw count, the first one on ties. */
  method ClassErrorEntropy(records: seq<Record>, c: nat, frequency: array<Score>) returns (e: Score)
    requires Labelled(records, c) && c >= 1 && frequency.Length == c
    requires forall j :: 0 <= j < c ==> frequency[j] == Num(Counts(records, c)[j])
    ensures e == ClassErrorIndex(records, c)
  {
    ghost var f := Counts(records, c);
    var maxIndex := 0;
    var i := 0;
    while i < c
      invariant 0 <= i <= c
      invariant maxIndex < c && maxIndex <= i
      invariant forall j :: 0 <= j < i ==> f[j] <= f[maxIndex]
      invariant forall j :: 0 <= j < maxIndex ==> f[j] < f[maxIndex]
    {
      if Less(frequency[maxIndex], frequency[i]) {
        maxIndex := i;
      }
      i := i + 1;
    }
    CountsFirstMaximum(records, c, maxIndex);
    e := Minus(Num(1.0), frequency[maxIndex]);
  }

  /** The first maximum of the class-frequency table is the majority class. */
  lemma CountsFirstMaximum(records: seq<Record>, c: nat, m: nat)
    requires Labelled(records, c) && m < c
    requires forall j :: 0 <= j < c ==> Counts(records, c)[j] <= Counts(records, c)[m]
    requires forall j :: 0 <= j < m ==> Counts(records, c)[j] < Counts(records, c)[m]
    ensures ClassErrorIndex(records, c) == Num(1.0 - Counts(records, c)[m])
  {
    var f := Counts(records, c);
    forall x | 1 <= x <= c
      ensures Occurrences(Labels(records), x) <= Occurrences(Labels(records), m + 1)
      ensures x < m + 1 ==> Occurrences(Labels(records), x) < Occurrences(Labels(records), m + 1)
    {
      assert f[x - 1] == Occurrences(Labels(records), x) as real;
    }
    MajorityIsFirstMaximum(records, c, m + 1);
  }

  /** `evaluate(records, a)`, computed with `collect` and `entropy`. */
  method Evaluate(rule: Rule, records: seq<Record>, c: nat, a: int) returns (average: Score)
    requires Labelled(records, c) && HasAttribute(records, a) && (rule.ClassError? ==> c >= 1)
    ensures average == SplitScore(rule, records, c, a)
  {
    var left := Collect(records, a, 0);
    var right := Collect(records, a, 1);
    SubListProperties(left, records, c);
    SubListProperties(right, records, c);
    var entropyLeft := Entropy(rule, left, c);
    var entropyRight := Entropy(rule, right, c);
    average := Plus(Scale(entropyLeft, |left|, |records|), Scale(entropyRight, |right|, |records|));
  }

  /** `bestCondition(records, attrs)`, the scan with the strict `<`. */
  method BestCondition(rule: Rule, records: seq<Record>, c: nat, attrs: seq<int>) returns (condition: int)
    requires Labelled(records, c) && HasAttributes(records, attrs) && (rule.ClassError? ==> c >= 1)
    requires |attrs| > 0
    ensures condition == BestAttribute(attrs, SplitScores(rule, records, c, attrs))
  {
    ghost var scores := SplitScores(rule, records, c, attrs);
    var minValue := Evaluate(rule, records, c, attrs[0]);
    var minIndex := 0;
    var i := 0;
    while i < |attrs|
      invariant 0 <= i <= |attrs|
      invariant Scanned(scores, i, minIndex) && minValue == scores[minIndex]
    {
      var value := Evaluate(rule, records, c, attrs[i]);
      ScanStep(scores, i, minIndex);
      if Less(value, minValue) {
        minValue := value;
        minIndex := i;
      }
      i := i + 1;
    }
    ScanDone(scores, minIndex);
    condition := attrs[minIndex];
  }
}
