/**
 * The decision tree's training records and the list operations its
 * learner runs on them: `collect`, `sameClass` and `majorityClass`. Each is
 * a specification function and a method with the source's loops proved
 * against it.
 */
module Records {
  import opened Votes

  /**
   * A training record: attribute values for attributes 1..A, stored at
   * positions 0..A-1, and a class number.
   */
  datatype Record = Record(attributes: seq<int>, className: int)

  function Labels(records: seq<Record>): (l: seq<int>)
    ensures |l| == |records|
    ensures forall i :: 0 <= i < |records| ==> l[i] == records[i].className
  {
    seq(|records|, i requires 0 <= i < |records| => records[i].className)
  }

  /** Every class is one of 1..C, so that `frequency[className - 1]` exists. */
  predicate Labelled(records: seq<Record>, c: int)
  {
    forall r :: r in records ==> 1 <= r.className <= c
  }

  /** Attribute `a` (1-based) exists in every record. */
  predicate HasAttribute(records: seq<Record>, a: int)
  {
    1 <= a && forall r :: r in records ==> a <= |r.attributes|
  }

  /** Every attribute value is 0 or 1. */
  predicate Binary(records: seq<Record>)
  {
    forall r, j :: r in records && 0 <= j < |r.attributes| ==>
      r.attributes[j] == 0 || r.attributes[j] == 1
  }

  lemma LabelledInRange(records: seq<Record>, c: int)
    requires Labelled(records, c)
    ensures InRange(Labels(records), c)
  {
    forall i | 0 <= i < |records| ensures 1 <= Labels(records)[i] <= c {
      assert records[i] in records;
    }
  }

  /**
   * `collect(records, a, v)`: the records whose attribute `a` has value
   * `v`, in their original order.
   */
  function Collected(records: seq<Record>, a: int, v: int): (r: seq<Record>)
    requires HasAttribute(records, a)
    ensures |r| <= |records|
    ensures forall x :: x in r ==> x in records && x.attributes[a - 1] == v
  {
    if |records| == 0 then []
    else
      var n := |records| - 1;
      assert forall x :: x in records[..n] ==> x in records;
      assert forall x :: x in records ==> x in records[..n] || x == records[n];
      Collected(records[..n], a, v) + (if records[n].attributes[a - 1] == v then [records[n]] else [])
  }

  /** No record with value `v` at attribute `a` is left out of the collection. */
  lemma {:induction false} CollectedComplete(records: seq<Record>, a: int, v: int, x: Record)
    requires HasAttribute(records, a)
    requires x in records && x.attributes[a - 1] == v
    ensures x in Collected(records, a, v)
  {
    var n := |records| - 1;
    if x != records[n] {
      assert records == records[..n] + [records[n]];
      assert x in records[..n];
      assert forall y :: y in records[..n] ==> y in records;
      CollectedComplete(records[..n], a, v, x);
    }
  }

  /**
   * For 0/1 attributes the value-0 and value-1 collections split the
   * records: together they hold every record exactly as often as the
   * input does.
   */
  lemma {:induction false} CollectedPartition(records: seq<Record>, a: int)
    requires HasAttribute(records, a) && Binary(records)
    ensures multiset(Collected(records, a, 0)) + multiset(Collected(records, a, 1)) == multiset(records)
    ensures |Collected(records, a, 0)| + |Collected(records, a, 1)| == |records|
  {
    if |records| > 0 {
      var init := records[..|records| - 1];
      SubListProperties(init, records, 0);
      CollectedPartition(init, a);
      PartitionStep(records, a);
    }
  }

  /** For 0/1 attributes the two collections together are as long as the list. */
  lemma CollectedSizes(records: seq<Record>, a: int)
    requires HasAttribute(records, a) && Binary(records)
    ensures |Collected(records, a, 0)| + |Collected(records, a, 1)| == |records|
  {
    CollectedPartition(records, a);
  }

  /** The split of all records but the last extends to the split of all records. */
  lemma PartitionStep(records: seq<Record>, a: int)
    requires HasAttribute(records, a) && Binary(records) && |records| > 0
    requires HasAttribute(records[..|records| - 1], a)
    requires multiset(Collected(records[..|records| - 1], a, 0)) + multiset(Collected(records[..|records| - 1], a, 1)) ==
      multiset(records[..|records| - 1])
    ensures multiset(Collected(records, a, 0)) + multiset(Collected(records, a, 1)) == multiset(records)
  {
    var n := |records| - 1;
    var last := records[n];
    assert last in records;
    InitLast(records);
    CollectedStep(records, a, 0);
    CollectedStep(records, a, 1);
    AppendOneSplit(Collected(records[..n], a, 0), Collected(records[..n], a, 1), records[..n], last,
                   Collected(records, a, 0), Collected(records, a, 1), records, last.attributes[a - 1] == 0);
  }

  /** The last record joins the collection exactly when it has the value. */
  lemma CollectedStep(records: seq<Record>, a: int, v: int)
    requires HasAttribute(records, a) && |records| > 0
    ensures HasAttribute(records[..|records| - 1], a)
    ensures Collected(records, a, v) ==
      Collected(records[..|records| - 1], a, v) + (if records[|records| - 1].attributes[a - 1] == v then [records[|records| - 1]] else [])
  {
    assert forall x :: x in records[..|records| - 1] ==> x in records;
  }

  lemma InitLast(records: seq<Record>)
    requires |records| > 0
    ensures records == records[..|records| - 1] + [records[|records| - 1]]
  {
  }

  /** Appending a record to a list and to one of its two parts keeps the split. */
  lemma AppendOneSplit(l0: seq<Record>, l1: seq<Record>, init: seq<Record>, last: Record,
                       c0: seq<Record>, c1: seq<Record>, records: seq<Record>, zero: bool)
    requires multiset(l0) + multiset(l1) == multiset(init)
    requires records == init + [last]
    requires zero ==> c0 == l0 + [last] && c1 == l1
    requires !zero ==> c0 == l0 && c1 == l1 + [last]
    ensures multiset(c0) + multiset(c1) == multiset(records)
  {
    assert multiset(records) == multiset(init) + multiset{last};
    if zero {
      assert multiset(c0) == multiset(l0) + multiset{last};
    } else {
      assert multiset(c1) == multiset(l1) + multiset{last};
    }
  }

  /** Sub-lists of a record list keep the properties of its members. */
  lemma SubListProperties(sub: seq<Record>, records: seq<Record>, c: int)
    requires forall x :: x in sub ==> x in records
    ensures Labelled(records, c) ==> Labelled(sub, c)
    ensures Binary(records) ==> Binary(sub)
    ensures forall a :: HasAttribute(records, a) ==> HasAttribute(sub, a)
  {
  }

  /** `sameClass`: every record has the class of the first one. */
  predicate IsPure(records: seq<Record>): (pure: bool)
    ensures pure <==> forall i, j :: 0 <= i < |records| && 0 <= j < |records| ==> records[i].className == records[j].className
  {
    forall i :: 0 <= i < |records| ==> records[i].className == records[0].className
  }

  /** The class-frequency table of a list: entry `j` counts class `j + 1`. */
  function Counts(records: seq<Record>, c: nat): (f: seq<real>)
    ensures |f| == c
    ensures forall j :: 0 <= j < c ==> f[j] == Occurrences(Labels(records), j + 1) as real
  {
    seq(c, j requires 0 <= j < c => Occurrences(Labels(records), j + 1) as real)
  }

  /** The table of a labelled list accounts for every record. */
  lemma CountsSum(records: seq<Record>, c: nat)
    requires Labelled(records, c)
    ensures Sum(Counts(records, c)) == |records| as real
  {
    LabelledInRange(records, c);
    CountsOfTally(Labels(records), c);
    assert Counts(records, c) == Tally(Labels(records), Ones(|records|), c);
    TallySum(Labels(records), Ones(|records|), c);
    SumOnes(|records|);
  }

  /**
   * `majorityClass`: the smallest class among those with the most
   * records, paired with its number of records.
   */
  function Majority(records: seq<Record>, c: nat): (m: (int, nat))
    requires Labelled(records, c) && c >= 1
    ensures 1 <= m.0 <= c
    ensures m.1 == Occurrences(Labels(records), m.0)
    ensures forall x :: 1 <= x <= c ==> Occurrences(Labels(records), x) <= m.1
    ensures forall x :: 1 <= x < m.0 ==> Occurrences(Labels(records), x) < m.1
    ensures m.1 <= |records|
    ensures |records| > 0 ==> 1 <= m.1
  {
    var labels := Labels(records);
    LabelledInRange(records, c);
    CountsOfTally(labels, c);
    var w := Vote(labels, Ones(|labels|), c);
    assert forall x :: 1 <= x <= c ==> Tally(labels, Ones(|labels|), c)[x - 1] == Occurrences(labels, x) as real;
    MajorityPositive(labels, c, w);
    (w, Occurrences(labels, w))
  }

  lemma MajorityPositive(labels: seq<int>, c: nat, w: int)
    requires InRange(labels, c) && 1 <= w <= c
    requires forall j :: 0 <= j < c ==> Tally(labels, Ones(|labels|), c)[j] <= Tally(labels, Ones(|labels|), c)[w - 1]
    ensures |labels| > 0 ==> 1 <= Occurrences(labels, w)
  {
    if |labels| > 0 {
      OccurrencesPositive(labels, 0);
      TallyCounts(labels, c, labels[0] - 1);
      TallyCounts(labels, c, w - 1);
    }
  }

  /** The majority is the first class of maximal count, whatever computes it. */
  lemma MajorityIsFirstMaximum(records: seq<Record>, c: nat, m: int)
    requires Labelled(records, c) && c >= 1 && 1 <= m <= c
    requires forall x :: 1 <= x <= c ==> Occurrences(Labels(records), x) <= Occurrences(Labels(records), m)
    requires forall x :: 1 <= x < m ==> Occurrences(Labels(records), x) < Occurrences(Labels(records), m)
    ensures Majority(records, c) == (m, Occurrences(Labels(records), m))
  {
  }

  /** A pure non-empty list: its class holds every record and the others none. */
  lemma PureOccurrences(records: seq<Record>, x: int)
    requires |records| > 0 && IsPure(records)
    ensures Occurrences(Labels(records), x) == if x == records[0].className then |records| else 0
  {
    OccurrencesConstant(Labels(records), records[0].className, x);
  }

  /** The majority class of a pure non-empty list is its class, with every record. */
  lemma PureMajority(records: seq<Record>, c: nat)
    requires |records| > 0 && IsPure(records) && Labelled(records, c) && c >= 1
    ensures Majority(records, c) == (records[0].className, |records|)
  {
    var m := Majority(records, c);
    PureOccurrences(records, m.0);
    PureOccurrences(records, records[0].className);
    assert records[0] in records;
  }

  /** A majority holding every record means the list is pure. */
  lemma MajorityAllIsPure(records: seq<Record>, c: nat)
    requires Labelled(records, c) && c >= 1
    requires Majority(records, c).1 == |records|
    ensures IsPure(records)
  {
    OccurrencesAll(Labels(records), Majority(records, c).0);
  }

  method Collect(records: seq<Record>, a: int, v: int) returns (result: seq<Record>)
    requires HasAttribute(records, a)
    ensures result == Collected(records, a, v)
  {
    result := [];
    var i := 0;
    while i < |records|
      invariant 0 <= i <= |records|
      invariant HasAttribute(records[..i], a)
      invariant result == Collected(records[..i], a, v)
    {
      assert records[i] in records;
      assert records[..i + 1][..i] == records[..i];
      if records[i].attributes[a - 1] == v {
        result := result + [records[i]];
      }
      i := i + 1;
    }
    assert records[..i] == records;
  }

  method SameClass(records: seq<Record>) returns (same: bool)
    ensures same == IsPure(records)
  {
    var i := 0;
    while i < |records|
      invariant 0 <= i <= |records|
      invariant forall j :: 0 <= j < i ==> records[j].className == records[0].className
    {
      if records[i].className != records[0].className {
        return false;
      }
      i := i + 1;
    }
    return true;
  }

  /** The counting loops of `majorityClass`: entry `j` counts the records of class `j + 1`. */
  method ClassCounts(records: seq<Record>, c: nat) returns (frequency: array<int>)
    requires Labelled(records, c)
    ensures fresh(frequency) && frequency.Length == c
    ensures forall j :: 0 <= j < c ==> frequency[j] == Occurrences(Labels(records), j + 1)
  {
    frequency := new int[c];
    var i := 0;
    while i < c
      invariant 0 <= i <= c
      invariant forall j :: 0 <= j < i ==> frequency[j] == 0
    {
      frequency[i] := 0;
      i := i + 1;
    }
    ghost var labels := Labels(records);
    i := 0;
    while i < |records|
      invariant 0 <= i <= |records|
      invariant forall j :: 0 <= j < c ==> frequency[j] == Occurrences(labels[..i], j + 1)
    {
      assert records[i] in records;
      var k := records[i].className - 1;
      forall x | 1 <= x <= c
        ensures Occurrences(labels[..i + 1], x) == Occurrences(labels[..i], x) + (if x == k + 1 then 1 else 0)
      {
        OccurrencesPrefixStep(labels, i, x);
      }
      frequency[k] := frequency[k] + 1;
      i := i + 1;
    }
    assert labels[..i] == labels;
  }

  method MajorityClass(records: seq<Record>, c: nat) returns (className: int, count: int)
    requires Labelled(records, c) && c >= 1
    ensures className == Majority(records, c).0 && count == Majority(records, c).1
  {
    var frequency := ClassCounts(records, c);
    var maxIndex := 0;
    var i := 0;
    while i < c
      invariant 0 <= i <= c
      invariant maxIndex < c && maxIndex <= i
      invariant forall j :: 0 <= j < i ==> frequency[j] <= frequency[maxIndex]
      invariant forall j :: 0 <= j < maxIndex ==> frequency[j] < frequency[maxIndex]
    {
      if frequency[i] > frequency[maxIndex] {
        maxIndex := i;
      }
      i := i + 1;
    }
    ghost var labels := Labels(records);
    forall x | 1 <= x <= c
      ensures Occurrences(labels, x) <= Occurrences(labels, maxIndex + 1)
      ensures x < maxIndex + 1 ==> Occurrences(labels, x) < Occurrences(labels, maxIndex + 1)
    {
      assert frequency[x - 1] == Occurrences(labels, x);
    }
    MajorityIsFirstMaximum(records, c, maxIndex + 1);
    className, count := maxIndex + 1, frequency[maxIndex];
  }
}
