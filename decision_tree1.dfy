/**
 * The decision-tree learner `DecisionTree1`: a binary tree over 0/1
 * attributes, grown top-down by choosing, at each node, the attribute whose
 * split has the lowest weighted impurity, with leaves that carry two
 * confidence percentages. `Build` is the tree the learner grows, stated as a
 * function; the class `DecisionTree1` keeps the learner's state and its
 * methods are proved against `Build`, `Walk` and the error counts below.
 */
module DecisionTree1 {
  import opened Wrappers
  import opened Scores
  import opened Votes
  import opened Records
  import opened Impurity

  /**
   * A tree node. A leaf carries its class and two percentages:
   * `confidenceMaj`, the share of its records that are of its class, and
   * `confidenceRec`, the share of all training records that reach it.
   */
  datatype Node =
    | Leaf(className: int, confidenceMaj: real, confidenceRec: real)
    | Internal(condition: int, left: Node, right: Node)

  /** The node's `condition` field: -1 on a leaf. */
  function ConditionOf(node: Node): (x: int)
    ensures node.Internal? ==> x == node.condition
    ensures node.Leaf? ==> x == -1
  {
    if node.Internal? then node.condition else -1
  }

  /** The node's `className` field: -1 on an internal node. */
  function ClassNameOf(node: Node): (x: int)
    ensures node.Leaf? ==> x == node.className
    ensures node.Internal? ==> x == -1
  {
    if node.Leaf? then node.className else -1
  }

  /** The node's two confidence fields: -1 on an internal node. */
  function ConfidencesOf(node: Node): (x: (real, real))
    ensures node.Leaf? ==> x == (node.confidenceMaj, node.confidenceRec)
    ensures node.Internal? ==> x == (-1.0, -1.0)
  {
    if node.Leaf? then (node.confidenceMaj, node.confidenceRec) else (-1.0, -1.0)
  }

  /**
   * The four-argument node constructor. Only the type "internal" makes an
   * internal node; any other type makes a leaf whose confidences are -1.
   * An internal node is made here with its children already built.
   */
  function NewNode(nodeType: string, value: int, left: Option<Node>, right: Option<Node>): (node: Node)
    requires nodeType == "internal" ==> left.Some? && right.Some?
    ensures node.Internal? <==> nodeType == "internal"
    ensures ConditionOf(node) == (if nodeType == "internal" then value else -1)
    ensures ClassNameOf(node) == (if nodeType == "internal" then -1 else value)
    ensures ConfidencesOf(node) == (-1.0, -1.0)
    ensures node.Internal? ==> node.left == left.value && node.right == right.value
  {
    if nodeType == "internal" then Internal(value, left.value, right.value)
    else Leaf(value, -1.0, -1.0)
  }

  /**
   * The six-argument node constructor: as `NewNode`, but a leaf keeps the
   * given confidences, while an internal node ignores them and holds -1.
   */
  function NewConfidentNode(nodeType: string, value: int, left: Option<Node>, right: Option<Node>,
                            confidenceMaj: real, confidenceRec: real): (node: Node)
    requires nodeType == "internal" ==> left.Some? && right.Some?
    ensures node.Internal? <==> nodeType == "internal"
    ensures ConditionOf(node) == (if nodeType == "internal" then value else -1)
    ensures ClassNameOf(node) == (if nodeType == "internal" then -1 else value)
    ensures ConfidencesOf(node) == (if nodeType == "internal" then (-1.0, -1.0) else (confidenceMaj, confidenceRec))
  {
    if nodeType == "internal" then Internal(value, left.value, right.value)
    else Leaf(value, confidenceMaj, confidenceRec)
  }

  /**
   * `ArrayList.remove(Integer)`: the list without the first occurrence of
   * `x`; a list without `x` is returned unchanged.
   */
  function RemoveFirst(s: seq<int>, x: int): (r: seq<int>)
    ensures x in s ==> multiset(r) == multiset(s) - multiset{x} && |r| == |s| - 1
    ensures x !in s ==> r == s
    ensures forall y :: y in r ==> y in s
  {
    if |s| == 0 then []
    else if s[0] == x then
      assert s == [s[0]] + s[1..];
      s[1..]
    else
      assert s == [s[0]] + s[1..];
      [s[0]] + RemoveFirst(s[1..], x)
  }

  /** No value occurs twice. */
  predicate Distinct(s: seq<int>)
  {
    forall i, j :: 0 <= i < j < |s| ==> s[i] != s[j]
  }

  /** What the learner demands of the records it grows a (sub)tree from. */
  predicate Growable(records: seq<Record>, c: nat, attrs: seq<int>, total: nat)
  {
    |records| > 0 && Labelled(records, c) && Binary(records) && HasAttributes(records, attrs) && |records| <= total
  }

  /** The leaf holding the majority of the records. */
  function MajorityLeaf(records: seq<Record>, c: nat, total: nat): (node: Node)
    requires |records| > 0 && Labelled(records, c) && |records| <= total
    ensures node.Leaf?
  {
    assert records[0] in records;
    var m := Majority(records, c);
    NewConfidentNode("leaf", m.0, None, None, 100.0 * m.1 as real / |records| as real,
                     100.0 * |records| as real / total as real)
  }

  /**
   * A choice of split attribute, as `bestCondition` makes it: given a list
   * of records and the candidate attributes, one of the candidates.
   */
  type Chooser = (seq<Record>, seq<int>) --> int

  /** `choose` picks a candidate for every list the learner may split. */
  ghost predicate Chooses(choose: Chooser, c: nat)
  {
    forall records, attrs {:trigger HasAttributes(records, attrs)} ::
      |records| > 0 && Labelled(records, c) && Binary(records) && HasAttributes(records, attrs) && |attrs| > 0 ==>
        choose.requires(records, attrs) && choose(records, attrs) in attrs
  }

  /**
   * `choose` is `bestCondition` under `rule`: on every list the learner may
   * split, it picks the candidate at the position of the scan's minimum
   * over the candidates' split scores.
   */
  ghost predicate IsBestCondition(choose: Chooser, rule: Rule, c: nat)
  {
    Chooses(choose, c) &&
    forall records, attrs {:trigger BestAttribute(attrs, SplitScores(rule, records, c, attrs))} ::
      |records| > 0 && 1 <= c && Labelled(records, c) && Binary(records) && HasAttributes(records, attrs) && |attrs| > 0 ==>
        choose(records, attrs) == BestAttribute(attrs, SplitScores(rule, records, c, attrs))
  }

  /** `bestCondition` under `rule`, as a chooser. */
  function BestOf(rule: Rule, c: nat): (choose: Chooser)
    ensures IsBestCondition(choose, rule, c)
  {
    (records: seq<Record>, attrs: seq<int>)
      requires |records| > 0 && Labelled(records, c) && HasAttributes(records, attrs) && |attrs| > 0 =>
      assert records[0] in records;
      BestAttribute(attrs, SplitScores(rule, records, c, attrs))
  }

  /**
   * `build(records, attributes)`: the tree grown from `records` with
   * candidate attributes `attrs`, splitting on the attribute `choose`
   * picks; `total` is the number of training records (`numberRecords`).
   * A pure list makes a leaf of its class; with no attribute left, or when
   * the chosen attribute leaves one side empty, a leaf of the majority
   * class; otherwise an internal node on the chosen attribute whose two
   * subtrees are grown from the value-0 and value-1 records without that
   * attribute.
   */
  function Build(choose: Chooser, records: seq<Record>, c: nat, attrs: seq<int>, total: nat): (node: Node)
    requires Growable(records, c, attrs, total) && Chooses(choose, c)
    ensures node.Internal? ==> node.condition in attrs
    decreases |attrs|
  {
    assert records[0] in records;
    if IsPure(records) then
      NewConfidentNode("leaf", records[0].className, None, None, 100.0, 100.0 * |records| as real / total as real)
    else if |attrs| == 0 then
      MajorityLeaf(records, c, total)
    else
      var condition := choose(records, attrs);
      var left, right := Collected(records, condition, 0), Collected(records, condition, 1);
      if |left| == 0 || |right| == 0 then
        MajorityLeaf(records, c, total)
      else
        var rest := RemoveFirst(attrs, condition);
        SubListProperties(left, records, c);
        SubListProperties(right, records, c);
        NewNode("internal", condition, Some(Build(choose, left, c, rest, total)), Some(Build(choose, right, c, rest, total)))
  }

  /** Records' classes. */
  function Classes(records: seq<Record>): set<int>
  {
    set r | r in records :: r.className
  }

  /** The leaves of a tree. */
  function Leaves(node: Node): (s: set<Node>)
    ensures forall l :: l in s ==> l.Leaf?
    ensures node.Leaf? ==> s == {node}
  {
    match node
    case Leaf(_, _, _) => {node}
    case Internal(_, left, right) => Leaves(left) + Leaves(right)
  }

  /** The attributes tested anywhere in a tree. */
  function Conditions(node: Node): set<int>
  {
    match node
    case Leaf(_, _, _) => {}
    case Internal(condition, left, right) => {condition} + Conditions(left) + Conditions(right)
  }

  /** Number of tests on the longest path from the root to a leaf. */
  function Height(node: Node): nat
  {
    match node
    case Leaf(_, _, _) => 0
    case Internal(_, left, right) => 1 + (if Height(left) < Height(right) then Height(right) else Height(left))
  }

  /** No attribute is tested twice on a path from the root to a leaf. */
  predicate DistinctPaths(node: Node)
  {
    match node
    case Leaf(_, _, _) => true
    case Internal(condition, left, right) =>
      condition !in Conditions(left) && condition !in Conditions(right) &&
      DistinctPaths(left) && DistinctPaths(right)
  }

  /** Every test reads one of the attributes 1..w of a vector of width w. */
  predicate Fits(node: Node, w: int)
  {
    match node
    case Leaf(_, _, _) => true
    case Internal(condition, left, right) => 1 <= condition <= w && Fits(left, w) && Fits(right, w)
  }

  /** A tree fits width `w` when all its tests are within 1..w. */
  lemma {:induction false} ConditionsFit(node: Node, w: int)
    requires forall x :: x in Conditions(node) ==> 1 <= x <= w
    ensures Fits(node, w)
  {
    if node.Internal? {
      assert node.condition in Conditions(node);
      ConditionsFit(node.left, w);
      ConditionsFit(node.right, w);
    }
  }

  /** Both confidences of every leaf are percentages above zero. */
  predicate Confident(node: Node)
  {
    forall l :: l in Leaves(node) ==> 0.0 < l.confidenceMaj <= 100.0 && 0.0 < l.confidenceRec <= 100.0
  }

  /** `k` out of `n`, as a percentage, when `0 < k <= n`. */
  lemma Percentage(k: nat, n: nat)
    requires 0 < k <= n
    ensures 0.0 < 100.0 * k as real / n as real <= 100.0
    ensures k == n ==> 100.0 * k as real / n as real == 100.0
  {
    var q := 100.0 * k as real / n as real;
    assert q * n as real == 100.0 * k as real;
  }

  /** A class counted at least once is the class of some record. */
  lemma OccursInClasses(records: seq<Record>, x: int)
    requires 1 <= Occurrences(Labels(records), x)
    ensures x in Classes(records)
  {
    OccurrencesMember(Labels(records), x);
    var i :| 0 <= i < |records| && Labels(records)[i] == x;
    assert records[i] in records;
  }

  /** A majority leaf is confident and its class is one of the records' classes. */
  lemma MajorityLeafFacts(records: seq<Record>, c: nat, total: nat)
    requires |records| > 0 && Labelled(records, c) && |records| <= total
    ensures Confident(MajorityLeaf(records, c, total))
    ensures MajorityLeaf(records, c, total).className in Classes(records)
  {
    assert records[0] in records;
    var m := Majority(records, c);
    Percentage(m.1, |records|);
    Percentage(|records|, total);
    OccursInClasses(records, m.0);
  }

  /**
   * An internal node of a grown tree splits its records into two non-empty
   * sides on its condition, and its subtrees are grown from those sides
   * without that attribute.
   */
  lemma BuildSplit(choose: Chooser, records: seq<Record>, c: nat, attrs: seq<int>, total: nat)
    returns (condition: int, left: seq<Record>, right: seq<Record>, rest: seq<int>)
    requires Growable(records, c, attrs, total) && Chooses(choose, c) && Build(choose, records, c, attrs, total).Internal?
    ensures condition == Build(choose, records, c, attrs, total).condition && condition in attrs
    ensures HasAttribute(records, condition)
    ensures left == Collected(records, condition, 0) && right == Collected(records, condition, 1)
    ensures rest == RemoveFirst(attrs, condition) && |rest| == |attrs| - 1
    ensures Growable(left, c, rest, total) && Growable(right, c, rest, total)
    ensures Build(choose, records, c, attrs, total).left == Build(choose, left, c, rest, total)
    ensures Build(choose, records, c, attrs, total).right == Build(choose, right, c, rest, total)
  {
    assert records[0] in records;
    condition := choose(records, attrs);
    left, right := Collected(records, condition, 0), Collected(records, condition, 1);
    rest := RemoveFirst(attrs, condition);
    SubListProperties(left, records, c);
    SubListProperties(right, records, c);
  }

  /**
   * A leaf of a grown tree is the leaf of a pure list's class, or the
   * majority leaf; the majority leaf is what a list with no attribute left
   * gets.
   */
  lemma BuildLeaf(choose: Chooser, records: seq<Record>, c: nat, attrs: seq<int>, total: nat)
    requires Growable(records, c, attrs, total) && Chooses(choose, c)
    ensures IsPure(records) ==>
      Build(choose, records, c, attrs, total) == Leaf(records[0].className, 100.0, 100.0 * |records| as real / total as real)
    ensures !IsPure(records) && |attrs| == 0 ==> Build(choose, records, c, attrs, total) == MajorityLeaf(records, c, total)
    ensures !IsPure(records) && Build(choose, records, c, attrs, total).Leaf? ==>
      Build(choose, records, c, attrs, total) == MajorityLeaf(records, c, total)
    ensures
      var one := !IsPure(records) && |attrs| > 0 &&
        (|Collected(records, choose(records, attrs), 0)| == 0 || |Collected(records, choose(records, attrs), 1)| == 0);
      one ==> Build(choose, records, c, attrs, total) == MajorityLeaf(records, c, total)
  {
    assert records[0] in records;
  }

  /** A grown tree is no deeper than the number of candidate attributes. */
  lemma {:induction false} BuildHeight(choose: Chooser, records: seq<Record>, c: nat, attrs: seq<int>, total: nat)
    requires Growable(records, c, attrs, total) && Chooses(choose, c)
    ensures Height(Build(choose, records, c, attrs, total)) <= |attrs|
    decreases |attrs|
  {
    if Build(choose, records, c, attrs, total).Internal? {
      var condition, left, right, rest := BuildSplit(choose, records, c, attrs, total);
      BuildHeight(choose, left, c, rest, total);
      BuildHeight(choose, right, c, rest, total);
    }
  }

  /** A grown tree tests only candidate attributes. */
  lemma {:induction false} BuildConditions(choose: Chooser, records: seq<Record>, c: nat, attrs: seq<int>, total: nat)
    requires Growable(records, c, attrs, total) && Chooses(choose, c)
    ensures forall x :: x in Conditions(Build(choose, records, c, attrs, total)) ==> x in attrs
    decreases |attrs|
  {
    if Build(choose, records, c, attrs, total).Internal? {
      var condition, left, right, rest := BuildSplit(choose, records, c, attrs, total);
      BuildConditions(choose, left, c, rest, total);
      BuildConditions(choose, right, c, rest, total);
    }
  }

  /** With distinct candidate attributes, no path of a grown tree tests an attribute twice. */
  lemma {:induction false} BuildDistinctPaths(choose: Chooser, records: seq<Record>, c: nat, attrs: seq<int>, total: nat)
    requires Growable(records, c, attrs, total) && Chooses(choose, c) && Distinct(attrs)
    ensures DistinctPaths(Build(choose, records, c, attrs, total))
    decreases |attrs|
  {
    if Build(choose, records, c, attrs, total).Internal? {
      var condition, left, right, rest := BuildSplit(choose, records, c, attrs, total);
      RemoveFirstDistinct(attrs, condition);
      BuildDistinctPaths(choose, left, c, rest, total);
      BuildDistinctPaths(choose, right, c, rest, total);
      BuildConditions(choose, left, c, rest, total);
      BuildConditions(choose, right, c, rest, total);
    }
  }

  /** Removing an attribute from a list without repeats leaves neither it nor a repeat. */
  lemma {:induction false} RemoveFirstDistinct(s: seq<int>, x: int)
    requires Distinct(s)
    ensures Distinct(RemoveFirst(s, x)) && x !in RemoveFirst(s, x)
  {
    if |s| > 0 {
      assert Distinct(s[1..]);
      RemoveFirstDistinct(s[1..], x);
      if s[0] != x {
        assert s[0] !in s[1..];
      }
    }
  }

  /** Both confidences of every leaf of a grown tree are percentages above zero. */
  lemma {:induction false} BuildConfident(choose: Chooser, records: seq<Record>, c: nat, attrs: seq<int>, total: nat)
    requires Growable(records, c, attrs, total) && Chooses(choose, c)
    ensures Confident(Build(choose, records, c, attrs, total))
    decreases |attrs|
  {
    BuildLeaf(choose, records, c, attrs, total);
    if Build(choose, records, c, attrs, total).Internal? {
      var condition, left, right, rest := BuildSplit(choose, records, c, attrs, total);
      BuildConfident(choose, left, c, rest, total);
      BuildConfident(choose, right, c, rest, total);
    } else if IsPure(records) {
      Percentage(|records|, total);
    } else {
      MajorityLeafFacts(records, c, total);
    }
  }

  /** Every leaf of a grown tree names a class that some of the records have. */
  lemma {:induction false} BuildLeafClasses(choose: Chooser, records: seq<Record>, c: nat, attrs: seq<int>, total: nat)
    requires Growable(records, c, attrs, total) && Chooses(choose, c)
    ensures forall l :: l in Leaves(Build(choose, records, c, attrs, total)) ==> l.className in Classes(records)
    decreases |attrs|
  {
    assert records[0] in records;
    BuildLeaf(choose, records, c, attrs, total);
    if Build(choose, records, c, attrs, total).Internal? {
      var condition, left, right, rest := BuildSplit(choose, records, c, attrs, total);
      BuildLeafClasses(choose, left, c, rest, total);
      BuildLeafClasses(choose, right, c, rest, total);
    } else if !IsPure(records) {
      MajorityLeafFacts(records, c, total);
    }
  }

  /**
   * What a leaf grown from `records` reports: a class with the most
   * records, the share of the records that are of that class, and the
   * share of all `total` training records that the list holds.
   */
  ghost predicate Reports(leaf: Node, records: seq<Record>, c: nat, total: nat)
    requires |records| > 0 && total > 0
  {
    leaf.Leaf? && 1 <= leaf.className <= c &&
    (forall x :: 1 <= x <= c ==> Occurrences(Labels(records), x) <= Occurrences(Labels(records), leaf.className)) &&
    leaf.confidenceMaj == 100.0 * Occurrences(Labels(records), leaf.className) as real / |records| as real &&
    leaf.confidenceRec == 100.0 * |records| as real / total as real
  }

  lemma MajorityLeafReports(records: seq<Record>, c: nat, total: nat)
    requires |records| > 0 && Labelled(records, c) && |records| <= total
    ensures Reports(MajorityLeaf(records, c, total), records, c, total)
  {
    assert records[0] in records;
  }

  lemma PureLeafReports(records: seq<Record>, c: nat, total: nat)
    requires |records| > 0 && Labelled(records, c) && |records| <= total && IsPure(records)
    ensures Reports(Leaf(records[0].className, 100.0, 100.0 * |records| as real / total as real), records, c, total)
  {
    assert records[0] in records;
    PureMajority(records, c);
    Percentage(|records|, |records|);
  }

  /** Every leaf at the root of a grown tree reports its majority class and its confidences. */
  lemma BuildLeafReports(choose: Chooser, records: seq<Record>, c: nat, attrs: seq<int>, total: nat)
    requires Growable(records, c, attrs, total) && Chooses(choose, c)
    requires Build(choose, records, c, attrs, total).Leaf?
    ensures Reports(Build(choose, records, c, attrs, total), records, c, total)
  {
    BuildLeaf(choose, records, c, attrs, total);
    if IsPure(records) {
      PureLeafReports(records, c, total);
    } else {
      MajorityLeafReports(records, c, total);
    }
  }

  /** A vector of width `w` can be walked down a tree grown on attributes within 1..w. */
  lemma BuildFits(choose: Chooser, records: seq<Record>, c: nat, attrs: seq<int>, total: nat, w: int)
    requires Growable(records, c, attrs, total) && Chooses(choose, c)
    requires forall a :: a in attrs ==> 1 <= a <= w
    ensures Fits(Build(choose, records, c, attrs, total), w)
  {
    BuildConditions(choose, records, c, attrs, total);
    ConditionsFit(Build(choose, records, c, attrs, total), w);
  }

  /**
   * The walk of `classify` and `classifyGetNode`: from the root, follow the
   * left branch when the vector's value at the node's condition is 0 and
   * the right branch otherwise, until a leaf. The walk ends at a leaf of
   * the tree.
   */
  function Walk(node: Node, vector: seq<int>): (leaf: Node)
    requires Fits(node, |vector|)
    ensures leaf in Leaves(node)
  {
    match node
    case Leaf(_, _, _) => node
    case Internal(condition, left, right) =>
      if vector[condition - 1] == 0 then Walk(left, vector) else Walk(right, vector)
  }

  /**
   * Any vector that fits a grown tree is classified into a class of the
   * training records, by a leaf whose two confidences are percentages above
   * zero.
   */
  lemma ClassifiedLeaf(choose: Chooser, records: seq<Record>, c: nat, attrs: seq<int>, total: nat, vector: seq<int>)
    requires Growable(records, c, attrs, total) && Chooses(choose, c)
    requires Fits(Build(choose, records, c, attrs, total), |vector|)
    ensures var leaf := Walk(Build(choose, records, c, attrs, total), vector);
      leaf.className in Classes(records) && 1 <= leaf.className <= c &&
      0.0 < leaf.confidenceMaj <= 100.0 && 0.0 < leaf.confidenceRec <= 100.0
  {
    BuildConfident(choose, records, c, attrs, total);
    BuildLeafClasses(choose, records, c, attrs, total);
    var leaf := Walk(Build(choose, records, c, attrs, total), vector);
    var r :| r in records && r.className == leaf.className;
  }

  /** Every record of a list can be walked down the tree grown from it. */
  lemma BuildFitsRecords(choose: Chooser, records: seq<Record>, c: nat, attrs: seq<int>, total: nat)
    requires Growable(records, c, attrs, total) && Chooses(choose, c)
    ensures forall x :: x in records ==> Fits(Build(choose, records, c, attrs, total), |x.attributes|)
  {
    BuildConditions(choose, records, c, attrs, total);
    forall x | x in records
      ensures Fits(Build(choose, records, c, attrs, total), |x.attributes|)
    {
      ConditionsFit(Build(choose, records, c, attrs, total), |x.attributes|);
    }
  }

  /**
   * Each record walks down to the leaf grown from a sub-list that holds
   * it, every record of that sub-list reaches the same leaf, and the leaf
   * reports the sub-list's majority class and confidences. That the
   * sub-lists do not overlap is `LeafListsPartition`.
   */
  lemma {:induction false} BuildWalkReports(choose: Chooser, records: seq<Record>, c: nat, attrs: seq<int>, total: nat, r: Record)
    returns (sub: seq<Record>)
    requires Growable(records, c, attrs, total) && Chooses(choose, c) && r in records
    ensures forall x :: x in records ==> Fits(Build(choose, records, c, attrs, total), |x.attributes|)
    ensures r in sub && total > 0
    ensures forall x :: x in sub ==>
      x in records && Walk(Build(choose, records, c, attrs, total), x.attributes) == Walk(Build(choose, records, c, attrs, total), r.attributes)
    ensures Reports(Walk(Build(choose, records, c, attrs, total), r.attributes), sub, c, total)
    decreases |attrs|
  {
    BuildFitsRecords(choose, records, c, attrs, total);
    var tree := Build(choose, records, c, attrs, total);
    if tree.Leaf? {
      BuildLeafReports(choose, records, c, attrs, total);
      sub := records;
    } else {
      var condition, left, right, rest := BuildSplit(choose, records, c, attrs, total);
      var value := r.attributes[condition - 1];
      var side := Collected(records, condition, value);
      assert side == if value == 0 then left else right;
      CollectedComplete(records, condition, value, r);
      sub := BuildWalkReports(choose, side, c, rest, total, r);
      Descend(tree, Build(choose, side, c, rest, total), records, value, sub, r, c, total);
    }
  }

  /**
   * Records that walk to one leaf of the subtree on the side of their value
   * walk to that leaf of the node too, and the leaf reports the same list.
   */
  lemma Descend(node: Node, child: Node, records: seq<Record>, value: int, sub: seq<Record>, r: Record, c: nat, total: nat)
    requires node.Internal? && HasAttribute(records, node.condition) && (value == 0 || value == 1)
    requires child == if value == 0 then node.left else node.right
    requires forall x :: x in records ==> Fits(node, |x.attributes|)
    requires r in sub && r in records && total > 0 && Fits(child, |r.attributes|)
    requires forall x :: x in sub ==> x in Collected(records, node.condition, value) && Fits(child, |x.attributes|)
    requires forall x :: x in sub ==> Walk(child, x.attributes) == Walk(child, r.attributes)
    requires Reports(Walk(child, r.attributes), sub, c, total)
    ensures forall x :: x in sub ==> x in records && Walk(node, x.attributes) == Walk(node, r.attributes)
    ensures Reports(Walk(node, r.attributes), sub, c, total)
  {
  }

  /**
   * A leaf of full majority confidence was grown from records of its class
   * alone: every record sharing its sub-list, and in particular every
   * training record that reaches it, has the leaf's class.
   */
  lemma PureLeafReached(choose: Chooser, records: seq<Record>, c: nat, attrs: seq<int>, total: nat, r: Record)
    requires Growable(records, c, attrs, total) && Chooses(choose, c) && r in records
    ensures forall x :: x in records ==> Fits(Build(choose, records, c, attrs, total), |x.attributes|)
    ensures var leaf := Walk(Build(choose, records, c, attrs, total), r.attributes);
      leaf.confidenceMaj == 100.0 ==>
        && leaf.className == r.className
        && exists sub: seq<Record> :: r in sub && forall x :: x in sub ==>
             x in records && Walk(Build(choose, records, c, attrs, total), x.attributes) == leaf && x.className == leaf.className
  {
    var sub := BuildWalkReports(choose, records, c, attrs, total, r);
    var leaf := Walk(Build(choose, records, c, attrs, total), r.attributes);
    if leaf.confidenceMaj == 100.0 {
      FullConfidencePure(leaf, sub, c, total);
      assert r in sub && forall x :: x in sub ==>
        x in records && Walk(Build(choose, records, c, attrs, total), x.attributes) == leaf && x.className == leaf.className;
    }
  }

  /** A leaf reporting full majority confidence for a list holds the class of every record in it. */
  lemma FullConfidencePure(leaf: Node, sub: seq<Record>, c: nat, total: nat)
    requires |sub| > 0 && total > 0 && Reports(leaf, sub, c, total) && leaf.confidenceMaj == 100.0
    ensures forall x :: x in sub ==> x.className == leaf.className
  {
    var n := |sub| as real;
    var k := Occurrences(Labels(sub), leaf.className) as real;
    var q := 100.0 * k / n;
    assert q * n == 100.0 * k;
    assert k == n;
    OccurrencesAll(Labels(sub), leaf.className);
    forall x | x in sub
      ensures x.className == leaf.className
    {
      var i :| 0 <= i < |sub| && sub[i] == x;
      assert Labels(sub)[i] == leaf.className;
    }
  }

  /** The leaves of a tree from left to right, one entry per leaf. */
  function LeafSeq(node: Node): (s: seq<Node>)
    ensures |s| > 0
    ensures forall l :: l in s <==> l in Leaves(node)
  {
    match node
    case Leaf(_, _, _) => [node]
    case Internal(_, left, right) => LeafSeq(left) + LeafSeq(right)
  }

  /**
   * The record lists the leaves of `Build`'s tree are grown from, in the
   * order of `LeafSeq`: the whole list where `build` makes a leaf, and the
   * lists of the left subtree followed by those of the right one where it
   * splits.
   */
  ghost function LeafLists(choose: Chooser, records: seq<Record>, c: nat, attrs: seq<int>, total: nat): seq<seq<Record>>
    requires Growable(records, c, attrs, total) && Chooses(choose, c)
    decreases |attrs|
  {
    assert records[0] in records;
    if IsPure(records) || |attrs| == 0 then [records]
    else
      var condition := choose(records, attrs);
      var left, right := Collected(records, condition, 0), Collected(records, condition, 1);
      if |left| == 0 || |right| == 0 then [records]
      else
        var rest := RemoveFirst(attrs, condition);
        SubListProperties(left, records, c);
        SubListProperties(right, records, c);
        LeafLists(choose, left, c, rest, total) + LeafLists(choose, right, c, rest, total)
  }

  /** The number of records in all the lists together. */
  function TotalSize(lists: seq<seq<Record>>): nat
  {
    if |lists| == 0 then 0 else |lists[0]| + TotalSize(lists[1..])
  }

  /** The lists joined end to end, as many records as they hold together. */
  function Concat(lists: seq<seq<Record>>): (all: seq<Record>)
    ensures |all| == TotalSize(lists)
  {
    if |lists| == 0 then [] else lists[0] + Concat(lists[1..])
  }

  lemma {:induction false} ConcatAppend(a: seq<seq<Record>>, b: seq<seq<Record>>)
    ensures Concat(a + b) == Concat(a) + Concat(b)
  {
    if |a| == 0 {
      assert a + b == b;
    } else {
      assert (a + b)[0] == a[0] && (a + b)[1..] == a[1..] + b;
      ConcatAppend(a[1..], b);
    }
  }

  lemma {:induction false} ConcatMember(lists: seq<seq<Record>>, i: nat, x: Record)
    requires i < |lists| && x in lists[i]
    ensures x in Concat(lists)
  {
    if i > 0 {
      ConcatMember(lists[1..], i - 1, x);
    }
  }

  /**
   * The leaves' lists share out the records without overlap: together they
   * hold every record exactly as often as the list the tree is grown from,
   * so their sizes add up to its size.
   */
  lemma {:induction false} LeafListsPartition(choose: Chooser, records: seq<Record>, c: nat, attrs: seq<int>, total: nat)
    requires Growable(records, c, attrs, total) && Chooses(choose, c)
    ensures multiset(Concat(LeafLists(choose, records, c, attrs, total))) == multiset(records)
    ensures TotalSize(LeafLists(choose, records, c, attrs, total)) == |records|
    ensures forall i, x :: 0 <= i < |LeafLists(choose, records, c, attrs, total)| && x in LeafLists(choose, records, c, attrs, total)[i] ==>
      x in records
    decreases |attrs|
  {
    var lists := LeafLists(choose, records, c, attrs, total);
    assert records[0] in records;
    if IsPure(records) || |attrs| == 0 {
      assert Concat(lists) == records + Concat([]);
    } else {
      var condition := choose(records, attrs);
      var left, right := Collected(records, condition, 0), Collected(records, condition, 1);
      if |left| == 0 || |right| == 0 {
        assert Concat(lists) == records + Concat([]);
      } else {
        var rest := RemoveFirst(attrs, condition);
        SubListProperties(left, records, c);
        SubListProperties(right, records, c);
        LeafListsPartition(choose, left, c, rest, total);
        LeafListsPartition(choose, right, c, rest, total);
        ConcatAppend(LeafLists(choose, left, c, rest, total), LeafLists(choose, right, c, rest, total));
        CollectedPartition(records, condition);
      }
    }
    assert |multiset(Concat(lists))| == |Concat(lists)|;
    forall i, x | 0 <= i < |lists| && x in lists[i]
      ensures x in records
    {
      ConcatMember(lists, i, x);
      assert x in multiset(Concat(lists));
    }
  }

  /**
   * `list` is the record list of `leaf` in the tree `node`: it is non-empty,
   * its records walk down to the leaf, and the leaf reports it.
   */
  ghost predicate LeafShare(node: Node, leaf: Node, list: seq<Record>, c: nat, total: nat)
  {
    && |list| > 0 && total > 0
    && Reports(leaf, list, c, total)
    && forall x :: x in list ==> Fits(node, |x.attributes|) && Walk(node, x.attributes) == leaf
  }

  /** `lists` are the record lists of the leaves of `node`, in the order of `LeafSeq`. */
  ghost predicate SharesOut(node: Node, lists: seq<seq<Record>>, c: nat, total: nat)
  {
    |lists| == |LeafSeq(node)| && forall i :: 0 <= i < |lists| ==> LeafShare(node, LeafSeq(node)[i], lists[i], c, total)
  }

  /** A leaf's list in a subtree, on the side its records' value leads to, is its list in the node. */
  lemma ShareStep(node: Node, value: int, records: seq<Record>, leaf: Node, list: seq<Record>, c: nat, total: nat)
    requires node.Internal? && HasAttribute(records, node.condition) && (value == 0 || value == 1)
    requires forall x :: x in records ==> Fits(node, |x.attributes|)
    requires LeafShare(if value == 0 then node.left else node.right, leaf, list, c, total)
    requires forall x :: x in list ==> x in Collected(records, node.condition, value)
    ensures LeafShare(node, leaf, list, c, total)
  {
  }

  /** The lists of the two sides of a split, left ones first, are the lists of the node. */
  lemma JoinShares(node: Node, records: seq<Record>, l: seq<seq<Record>>, r: seq<seq<Record>>, c: nat, total: nat)
    requires node.Internal? && HasAttribute(records, node.condition)
    requires forall x :: x in records ==> Fits(node, |x.attributes|)
    requires SharesOut(node.left, l, c, total) && SharesOut(node.right, r, c, total)
    requires forall i, x :: 0 <= i < |l| && x in l[i] ==> x in Collected(records, node.condition, 0)
    requires forall i, x :: 0 <= i < |r| && x in r[i] ==> x in Collected(records, node.condition, 1)
    ensures SharesOut(node, l + r, c, total)
  {
    var s := l + r;
    assert LeafSeq(node) == LeafSeq(node.left) + LeafSeq(node.right);
    forall i | 0 <= i < |s|
      ensures LeafShare(node, LeafSeq(node)[i], s[i], c, total)
    {
      if i < |l| {
        assert s[i] == l[i] && LeafSeq(node)[i] == LeafSeq(node.left)[i];
        ShareStep(node, 0, records, LeafSeq(node.left)[i], l[i], c, total);
      } else {
        var j := i - |l|;
        assert s[i] == r[j] && LeafSeq(node)[i] == LeafSeq(node.right)[j];
        ShareStep(node, 1, records, LeafSeq(node.right)[j], r[j], c, total);
      }
    }
  }

  /**
   * The leaves of a grown tree, from left to right, are grown from the
   * lists of `LeafLists`: every record of the i-th list walks down to the
   * i-th leaf, and that leaf reports the list's majority class and
   * confidences.
   */
  lemma {:induction false} BuildLeafLists(choose: Chooser, records: seq<Record>, c: nat, attrs: seq<int>, total: nat)
    requires Growable(records, c, attrs, total) && Chooses(choose, c)
    ensures SharesOut(Build(choose, records, c, attrs, total), LeafLists(choose, records, c, attrs, total), c, total)
    decreases |attrs|
  {
    var tree := Build(choose, records, c, attrs, total);
    var lists := LeafLists(choose, records, c, attrs, total);
    BuildFitsRecords(choose, records, c, attrs, total);
    if tree.Leaf? {
      BuildLeafReports(choose, records, c, attrs, total);
      assert lists == [records];
    } else {
      var condition, left, right, rest := BuildSplit(choose, records, c, attrs, total);
      assert lists == LeafLists(choose, left, c, rest, total) + LeafLists(choose, right, c, rest, total);
      BuildLeafLists(choose, left, c, rest, total);
      BuildLeafLists(choose, right, c, rest, total);
      LeafListsPartition(choose, left, c, rest, total);
      LeafListsPartition(choose, right, c, rest, total);
      JoinShares(tree, records, LeafLists(choose, left, c, rest, total), LeafLists(choose, right, c, rest, total), c, total);
    }
  }

  /** Every record can be walked down the tree. */
  ghost predicate AllFit(root: Node, records: seq<Record>)
  {
    forall i :: 0 <= i < |records| ==> Fits(root, |records[i].attributes|)
  }

  /** Number of records the tree misclassifies. */
  function Mistakes(root: Node, records: seq<Record>): (errors: nat)
    requires AllFit(root, records)
    ensures errors <= |records|
  {
    if |records| == 0 then 0
    else
      var n := |records| - 1;
      Mistakes(root, records[..n]) + (if Walk(root, records[n].attributes).className != records[n].className then 1 else 0)
  }

  /** No mistake exactly when every record is classified into its own class. */
  lemma {:induction false} MistakesZero(root: Node, records: seq<Record>)
    requires AllFit(root, records)
    ensures Mistakes(root, records) == 0 <==>
      forall i :: 0 <= i < |records| ==> Walk(root, records[i].attributes).className == records[i].className
  {
    if |records| > 0 {
      var n := |records| - 1;
      MistakesZero(root, records[..n]);
      assert forall i :: 0 <= i < n ==> records[..n][i] == records[i];
    }
  }

  /** A pure training list grows a single leaf, which classifies all of it correctly. */
  lemma PureTrainingError(choose: Chooser, records: seq<Record>, c: nat, attrs: seq<int>)
    requires Growable(records, c, attrs, |records|) && Chooses(choose, c) && IsPure(records)
    ensures Build(choose, records, c, attrs, |records|).Leaf?
    ensures AllFit(Build(choose, records, c, attrs, |records|), records)
    ensures Mistakes(Build(choose, records, c, attrs, |records|), records) == 0
  {
    BuildLeaf(choose, records, c, attrs, |records|);
    MistakesZero(Build(choose, records, c, attrs, |records|), records);
  }

  /** The list without its `i`-th record (`ArrayList.remove(int)`). */
  function RemoveAt(records: seq<Record>, i: nat): (r: seq<Record>)
    requires i < |records|
    ensures |r| == |records| - 1
    ensures forall x :: x in r ==> x in records
  {
    records[..i] + records[i + 1..]
  }

  /** What leave-one-out validation needs: every list of all records but one can grow a tree. */
  ghost predicate Validatable(choose: Chooser, records: seq<Record>, c: nat, attrs: seq<int>)
  {
    |records| >= 2 && Chooses(choose, c) && Labelled(records, c) && Binary(records) && HasAttributes(records, attrs)
  }

  /** The tree grown without record `i`; record `i` can be walked down it. */
  ghost function LeftOutTree(choose: Chooser, records: seq<Record>, c: nat, attrs: seq<int>, i: nat): (tree: Node)
    requires Validatable(choose, records, c, attrs) && i < |records|
    ensures Fits(tree, |records[i].attributes|)
  {
    var rest := RemoveAt(records, i);
    SubListProperties(rest, records, c);
    assert records[i] in records;
    BuildFits(choose, rest, c, attrs, |rest|, |records[i].attributes|);
    Build(choose, rest, c, attrs, |rest|)
  }

  /**
   * The classes leave-one-out validation predicts for the first `k` records:
   * record `i` gets the class of the tree grown without it.
   */
  ghost function LeftOutPredictions(choose: Chooser, records: seq<Record>, c: nat, attrs: seq<int>, k: nat): (predicted: seq<int>)
    requires Validatable(choose, records, c, attrs) && k <= |records|
    ensures |predicted| == k
    ensures forall i {:trigger LeftOutTree(choose, records, c, attrs, i)} :: 0 <= i < k ==>
      predicted[i] == Walk(LeftOutTree(choose, records, c, attrs, i), records[i].attributes).className
    decreases k
  {
    if k == 0 then []
    else LeftOutPredictions(choose, records, c, attrs, k - 1) + [Walk(LeftOutTree(choose, records, c, attrs, k - 1), records[k - 1].attributes).className]
  }

  /** Number of the first `k` records whose predicted class is not their own. */
  function Misclassified(predicted: seq<int>, records: seq<Record>, k: nat): (errors: nat)
    requires |predicted| == |records| && k <= |records|
    ensures errors <= k
  {
    if k == 0 then 0
    else Misclassified(predicted, records, k - 1) + (if predicted[k - 1] != records[k - 1].className then 1 else 0)
  }

  /** No record is misclassified exactly when every prediction is the record's own class. */
  lemma {:induction false} MisclassifiedZero(predicted: seq<int>, records: seq<Record>, k: nat)
    requires |predicted| == |records| && k <= |records|
    ensures Misclassified(predicted, records, k) == 0 <==> forall i :: 0 <= i < k ==> predicted[i] == records[i].className
  {
    if k > 0 {
      MisclassifiedZero(predicted, records, k - 1);
    }
  }

  /** `attributes` after loading: the attribute numbers 1..n in order. */
  function AttributeList(n: nat): (attrs: seq<int>)
    ensures |attrs| == n && Distinct(attrs)
    ensures forall i :: 0 <= i < n ==> attrs[i] == i + 1
    ensures forall a :: a in attrs <==> 1 <= a <= n
  {
    if n == 0 then [] else AttributeList(n - 1) + [n]
  }

  /** Loaded records, each with `n` values, have every attribute 1..n. */
  lemma LoadedAttributes(records: seq<Record>, n: nat)
    requires forall r :: r in records ==> |r.attributes| == n
    ensures HasAttributes(records, AttributeList(n))
  {
  }

  /** The learner's state, as `DecisionTree1` keeps it. */
  class DecisionTree1 {
    var root: Option<Node>
    var records: seq<Record>
    var attributes: seq<int>
    var numberRecords: int
    var numberAttributes: int
    var numberClasses: int
    var entropyRule: string

    /** An empty learner using the Gini index. */
    constructor ()
      ensures root == None && records == [] && attributes == []
      ensures numberRecords == 0 && numberAttributes == 0 && numberClasses == 0
      ensures entropyRule == "Gini"
    {
      root := None;
      records := [];
      attributes := [];
      numberRecords := 0;
      numberAttributes := 0;
      numberClasses := 0;
      entropyRule := "Gini";
    }

    method SetEntropyRule(entropyRule: string)
      modifies this
      ensures this.entropyRule == entropyRule
      ensures root == old(root) && records == old(records) && attributes == old(attributes)
      ensures numberRecords == old(numberRecords) && numberAttributes == old(numberAttributes)
      ensures numberClasses == old(numberClasses)
    {
      this.entropyRule := entropyRule;
    }

    /**
     * `loadTrainingData` once the file is read: `data` holds the records in
     * file order, each with `numberAttributes` values. The candidate
     * attributes become 1..numberAttributes.
     */
    method LoadTrainingData(data: seq<Record>, numberAttributes: nat, numberClasses: int)
      requires forall r :: r in data ==> |r.attributes| == numberAttributes
      modifies this
      ensures records == data && numberRecords == |data|
      ensures this.numberAttributes == numberAttributes && this.numberClasses == numberClasses
      ensures attributes == AttributeList(numberAttributes)
      ensures HasAttributes(records, attributes)
      ensures root == old(root) && entropyRule == old(entropyRule)
    {
      this.numberRecords := |data|;
      this.numberAttributes := numberAttributes;
      this.numberClasses := numberClasses;
      records := data;
      attributes := [];
      var i := 0;
      while i < numberAttributes
        invariant 0 <= i <= numberAttributes
        invariant attributes == AttributeList(i)
        invariant records == data && numberRecords == |data| && root == old(root) && entropyRule == old(entropyRule)
        invariant this.numberAttributes == numberAttributes && this.numberClasses == numberClasses
      {
        attributes := attributes + [i + 1];
        i := i + 1;
      }
      forall a | a in attributes
        ensures HasAttribute(records, a)
      {
      }
    }

    /**
     * `cutRecord(index)`: remove the record at `index`. The scan for
     * another record of the same class always meets the removed record
     * itself, so the number of classes never changes.
     */
    method CutRecord(index: int)
      requires 0 <= index < |records| && numberRecords == |records|
      modifies this
      ensures records == old(records[..index] + records[index + 1..])
      ensures numberRecords == old(numberRecords) - 1
      ensures numberClasses == old(numberClasses)
      ensures root == old(root) && attributes == old(attributes)
      ensures numberAttributes == old(numberAttributes) && entropyRule == old(entropyRule)
    {
      var isIndexTheOnlyClass := true;
      var i := 0;
      while i < numberRecords
        invariant 0 <= i <= numberRecords
        invariant unchanged(this) && i <= index
      {
        if records[i].className == records[index].className {
          isIndexTheOnlyClass := false;
          break;
        }
        i := i + 1;
      }
      numberClasses := numberClasses - (if isIndexTheOnlyClass then 1 else 0);
      records := records[..index] + records[index + 1..];
      numberRecords := numberRecords - 1;
    }

    /** `buildTree`: grow the tree from all records and candidate attributes. */
    method BuildTree(measure: seq<real> -> Score, ghost choose: Chooser)
      requires 0 <= numberClasses && 0 <= numberRecords
      requires IsBestCondition(choose, RuleNamed(entropyRule, measure), numberClasses)
      requires Growable(records, numberClasses, attributes, numberRecords)
      modifies this
      ensures records == old(records) && attributes == old(attributes) && numberRecords == old(numberRecords)
      ensures numberAttributes == old(numberAttributes) && numberClasses == old(numberClasses)
      ensures entropyRule == old(entropyRule)
      ensures root == Some(Build(choose, records, numberClasses, attributes, numberRecords))
    {
      var node := BuildNode(records, attributes, measure, choose);
      root := Some(node);
    }

    /** `build(records, attributes)`, with the rule this learner is set to. */
    method BuildNode(records: seq<Record>, attributes: seq<int>, measure: seq<real> -> Score, ghost choose: Chooser)
      returns (node: Node)
      requires 0 <= numberClasses && 0 <= numberRecords
      requires IsBestCondition(choose, RuleNamed(entropyRule, measure), numberClasses)
      requires Growable(records, numberClasses, attributes, numberRecords)
      ensures node == Build(choose, records, numberClasses, attributes, numberRecords)
      decreases |attributes|
    {
      var c: nat, total: nat := numberClasses, numberRecords;
      var rule := RuleNamed(entropyRule, measure);
      assert records[0] in records;
      BuildLeaf(choose, records, c, attributes, total);
      var same := SameClass(records);
      if same {
        var className := records[0].className;
        node := NewConfidentNode("leaf", className, None, None, 100.0, 100.0 * |records| as real / total as real);
      } else if |attributes| == 0 {
        node := MajorityNode(records, c, total);
      } else {
        var condition := ChooseCondition(rule, records, c, attributes, choose);
        var leftRecords := Collect(records, condition, 0);
        var rightRecords := Collect(records, condition, 1);
        if |leftRecords| == 0 || |rightRecords| == 0 {
          node := MajorityNode(records, c, total);
        } else {
          var leftAttributes := RemoveFirst(attributes, condition);
          var rightAttributes := RemoveFirst(attributes, condition);
          SubListProperties(leftRecords, records, c);
          SubListProperties(rightRecords, records, c);
          var left := BuildNode(leftRecords, leftAttributes, measure, choose);
          var right := BuildNode(rightRecords, rightAttributes, measure, choose);
          node := NewNode("internal", condition, Some(left), Some(right));
        }
      }
    }

    /** The majority leaf both majority branches of `build` make. */
    static method MajorityNode(records: seq<Record>, c: nat, total: nat) returns (node: Node)
      requires |records| > 0 && Labelled(records, c) && |records| <= total
      ensures node == MajorityLeaf(records, c, total)
    {
      assert records[0] in records;
      var className, numberMaj := MajorityClass(records, c);
      node := NewConfidentNode("leaf", className, None, None, 100.0 * numberMaj as real / |records| as real,
                               100.0 * |records| as real / total as real);
    }

    /** `bestCondition(records, attributes)`, as the chooser `choose` describes it. */
    static method ChooseCondition(rule: Rule, records: seq<Record>, c: nat, attributes: seq<int>, ghost choose: Chooser)
      returns (condition: int)
      requires IsBestCondition(choose, rule, c)
      requires |records| > 0 && Labelled(records, c) && Binary(records) && HasAttributes(records, attributes) && |attributes| > 0
      ensures choose.requires(records, attributes) && condition == choose(records, attributes)
    {
      assert records[0] in records;
      condition := BestCondition(rule, records, c, attributes);
    }

    /** `classifyGetNode(attributes)`: the leaf the vector reaches. */
    method ClassifyGetNode(vector: seq<int>) returns (leaf: Node)
      requires root.Some? && Fits(root.value, |vector|)
      ensures leaf == Walk(root.value, vector)
    {
      var current := root.value;
      while current.Internal?
        invariant Fits(current, |vector|) && Walk(current, vector) == Walk(root.value, vector)
        decreases current
      {
        if vector[current.condition - 1] == 0 {
          current := current.left;
        } else {
          current := current.right;
        }
      }
      leaf := current;
    }

    /** `classify(attributes)`: the class of the leaf the vector reaches. */
    method Classify(vector: seq<int>) returns (className: int)
      requires root.Some? && Fits(root.value, |vector|)
      ensures className == Walk(root.value, vector).className
    {
      var leaf := ClassifyGetNode(vector);
      className := leaf.className;
    }

    /**
     * `trainingError`: the percentage of the training records that the
     * tree misclassifies (NaN with no record, as `0.0 / 0` is in Java).
     */
    method TrainingError() returns (errorRate: Score)
      requires root.Some? && numberRecords == |records| && AllFit(root.value, records)
      ensures errorRate == Rate(Mistakes(root.value, records), |records|)
    {
      var numberErrors := 0;
      var i := 0;
      while i < numberRecords
        invariant 0 <= i <= numberRecords
        invariant AllFit(root.value, records[..i])
        invariant numberErrors == Mistakes(root.value, records[..i])
      {
        assert records[i] in records;
        assert records[..i + 1][..i] == records[..i];
        var predictedClass := Classify(records[i].attributes);
        if predictedClass != records[i].className {
          numberErrors := numberErrors + 1;
        }
        i := i + 1;
      }
      assert records[..i] == records;
      errorRate := Rate(numberErrors, numberRecords);
    }

    /**
     * What validation needs of the learner: the loaded records, with classes
     * in 1..numberClasses and 0/1 values for every attribute, and `choose`
     * being `bestCondition` under the learner's rule.
     */
    ghost predicate Loaded(measure: seq<real> -> Score, choose: Chooser)
      reads this
    {
      0 <= numberClasses && IsBestCondition(choose, RuleNamed(entropyRule, measure), numberClasses) &&
      numberRecords == |records| && 0 <= numberAttributes &&
      Labelled(records, numberClasses) && Binary(records) &&
      forall r :: r in records ==> |r.attributes| == numberAttributes
    }

    /**
     * `leaveOneOutValidation`: for each record, a fresh learner is loaded
     * with the same data and rule, the record is cut out, the tree is grown
     * from the others and asked for the record's class; the result is the
     * percentage of records classified wrongly.
     */
    method LeaveOneOutValidation(measure: seq<real> -> Score, ghost choose: Chooser) returns (errorRate: Score)
      requires Loaded(measure, choose) && |records| != 1
      ensures |records| == 0 ==> errorRate.NaN?
      ensures |records| >= 2 ==>
        errorRate == Rate(Misclassified(LeftOutPredictions(choose, records, numberClasses, AttributeList(numberAttributes), |records|),
                                        records, |records|), |records|)
    {
      var numberErrors := 0;
      // The loop runs only on two or more records: a single record is excluded, and none runs no round.
      if numberRecords >= 2 {
        numberErrors := LeftOutErrors(records, numberAttributes, numberClasses, entropyRule, measure, choose);
      }
      errorRate := Rate(numberErrors, numberRecords);
    }

    /**
     * The loop of `leaveOneOutValidation`: it counts the records that the
     * tree grown without them classifies wrongly.
     */
    static method LeftOutErrors(records: seq<Record>, width: nat, c: nat, entropyRule: string, measure: seq<real> -> Score,
                                ghost choose: Chooser) returns (numberErrors: nat)
      requires IsBestCondition(choose, RuleNamed(entropyRule, measure), c)
      requires |records| >= 2 && Labelled(records, c) && Binary(records)
      requires forall r :: r in records ==> |r.attributes| == width
      ensures Validatable(choose, records, c, AttributeList(width))
      ensures numberErrors == Misclassified(LeftOutPredictions(choose, records, c, AttributeList(width), |records|), records, |records|)
    {
      LoadedAttributes(records, width);
      ghost var predicted := LeftOutPredictions(choose, records, c, AttributeList(width), |records|);
      numberErrors := 0;
      var i := 0;
      while i < |records|
        invariant 0 <= i <= |records|
        invariant numberErrors == Misclassified(predicted, records, i)
      {
        var theOne := records[i];
        var predictedClass := ClassifyLeftOut(records, width, c, entropyRule, measure, i, choose);
        if predictedClass != theOne.className {
          numberErrors := numberErrors + 1;
        }
        i := i + 1;
      }
    }

    /**
     * One round of `leaveOneOutValidation`: a fresh learner loaded with the
     * same data and rule, with record `i` cut out and its tree grown,
     * classifies record `i`.
     */
    static method ClassifyLeftOut(records: seq<Record>, width: nat, c: nat, entropyRule: string, measure: seq<real> -> Score,
                                  i: nat, ghost choose: Chooser) returns (predictedClass: int)
      requires IsBestCondition(choose, RuleNamed(entropyRule, measure), c)
      requires |records| >= 2 && i < |records| && Labelled(records, c) && Binary(records)
      requires forall r :: r in records ==> |r.attributes| == width
      ensures Validatable(choose, records, c, AttributeList(width))
      ensures predictedClass == LeftOutPredictions(choose, records, c, AttributeList(width), |records|)[i]
    {
      LoadedAttributes(records, width);
      var theOne := records[i];
      assert theOne in records;
      var cutOutTree := new DecisionTree1();
      cutOutTree.LoadTrainingData(records, width, c);
      cutOutTree.SetEntropyRule(entropyRule);
      cutOutTree.CutRecord(i);
      ghost var rest := RemoveAt(records, i);
      assert cutOutTree.records == rest;
      SubListProperties(rest, records, c);
      cutOutTree.BuildTree(measure, choose);
      ghost var attrs := AttributeList(width);
      assert cutOutTree.root.value == LeftOutTree(choose, records, c, attrs, i);
      predictedClass := cutOutTree.Classify(theOne.attributes);
    }
  }
}
