/**
 * The older decision-tree learner `DecisionTree`: the same top-down growth
 * as `DecisionTree1`, with the Gini index as its only impurity and leaves
 * that carry only a class. Its tree is `DecisionTree1`'s Gini tree with the
 * confidences dropped, so both learners classify every vector alike.
 */
module DecisionTree {
  import opened Wrappers
  import opened Votes
  import opened Records
  import opened Impurity
  import Learner = DecisionTree1

  /** A tree node: a leaf with its class, or a test of an attribute. */
  datatype Node =
    | Leaf(className: int)
    | Internal(condition: int, left: Node, right: Node)

  /**
   * The node constructor. Only the type "internal" makes an internal node,
   * whose `className` field is -1; any other type makes a leaf, whose
   * `condition` field is -1.
   */
  function NewNode(nodeType: string, value: int, left: Option<Node>, right: Option<Node>): (node: Node)
    requires nodeType == "internal" ==> left.Some? && right.Some?
    ensures node.Internal? <==> nodeType == "internal"
    ensures node.Internal? ==> node.condition == value && node.left == left.value && node.right == right.value
    ensures node.Leaf? ==> node.className == value
  {
    if nodeType == "internal" then Internal(value, left.value, right.value)
    else Leaf(value)
  }

  /**
   * `build(records, attributes)`: a pure list makes a leaf of its class;
   * with no attribute left, or when the chosen attribute leaves one side
   * empty, a leaf of the majority class; otherwise an internal node on the
   * chosen attribute with subtrees grown from the value-0 and value-1
   * records without that attribute.
   */
  function Build(choose: Learner.Chooser, records: seq<Record>, c: nat, attrs: seq<int>): (node: Node)
    requires Learner.Growable(records, c, attrs, |records|) && Learner.Chooses(choose, c)
    ensures node.Internal? ==> node.condition in attrs
    ensures LeafClasses(node) <= Learner.Classes(records)
    decreases |attrs|
  {
    assert records[0] in records;
    if IsPure(records) then
      NewNode("leaf", records[0].className, None, None)
    else if |attrs| == 0 then
      Learner.OccursInClasses(records, Majority(records, c).0);
      NewNode("leaf", Majority(records, c).0, None, None)
    else
      var condition := choose(records, attrs);
      var left, right := Collected(records, condition, 0), Collected(records, condition, 1);
      if |left| == 0 || |right| == 0 then
        Learner.OccursInClasses(records, Majority(records, c).0);
        NewNode("leaf", Majority(records, c).0, None, None)
      else
        var rest := Learner.RemoveFirst(attrs, condition);
        SubListProperties(left, records, c);
        SubListProperties(right, records, c);
        var l, r := Build(choose, left, c, rest), Build(choose, right, c, rest);
        SubListClasses(left, records);
        SubListClasses(right, records);
        NewNode("internal", condition, Some(l), Some(r))
  }

  /** A sub-list has no class the list lacks. */
  lemma SubListClasses(sub: seq<Record>, records: seq<Record>)
    requires forall x :: x in sub ==> x in records
    ensures Learner.Classes(sub) <= Learner.Classes(records)
  {
  }

  /** The classes the leaves of a tree name. */
  function LeafClasses(node: Node): set<int>
  {
    match node
    case Leaf(className) => {className}
    case Internal(_, left, right) => LeafClasses(left) + LeafClasses(right)
  }

  /** A `DecisionTree1` tree without its confidences. */
  function Strip(node: Learner.Node): (r: Node)
  {
    match node
    case Leaf(className, _, _) => Leaf(className)
    case Internal(condition, left, right) => Internal(condition, Strip(left), Strip(right))
  }

  /**
   * The older learner grows `DecisionTree1`'s tree, confidences dropped,
   * whatever the number of training records the confidences are taken
   * against.
   */
  lemma {:induction false} BuildIsStripped(choose: Learner.Chooser, records: seq<Record>, c: nat, attrs: seq<int>, total: nat)
    requires Learner.Growable(records, c, attrs, total) && Learner.Chooses(choose, c)
    ensures Learner.Growable(records, c, attrs, |records|)
    ensures Build(choose, records, c, attrs) == Strip(Learner.Build(choose, records, c, attrs, total))
    decreases |attrs|
  {
    assert records[0] in records;
    Learner.BuildLeaf(choose, records, c, attrs, total);
    if IsPure(records) {
      PureMajority(records, c);
    } else if |attrs| > 0 {
      var condition := choose(records, attrs);
      var left, right := Collected(records, condition, 0), Collected(records, condition, 1);
      if |left| > 0 && |right| > 0 {
        var rest := Learner.RemoveFirst(attrs, condition);
        SubListProperties(left, records, c);
        SubListProperties(right, records, c);
        BuildIsStripped(choose, left, c, rest, total);
        BuildIsStripped(choose, right, c, rest, total);
        var tree := Learner.Build(choose, records, c, attrs, total);
        var _, _, _, _ := Learner.BuildSplit(choose, records, c, attrs, total);
      }
    }
  }

  /** Every test reads one of the attributes 1..w of a vector of width w. */
  predicate Fits(node: Node, w: int)
  {
    match node
    case Leaf(_) => true
    case Internal(condition, left, right) => 1 <= condition <= w && Fits(left, w) && Fits(right, w)
  }

  /** `classify`: follow 0 to the left and anything else to the right, then answer the leaf's class. */
  function ClassOf(node: Node, vector: seq<int>): (className: int)
    requires Fits(node, |vector|)
    ensures className in LeafClasses(node)
  {
    match node
    case Leaf(className) => className
    case Internal(condition, left, right) =>
      if vector[condition - 1] == 0 then ClassOf(left, vector) else ClassOf(right, vector)
  }

  /** Both learners classify alike: the walk on a stripped tree reaches the stripped leaf. */
  lemma {:induction false} ClassOfStripped(node: Learner.Node, vector: seq<int>)
    requires Learner.Fits(node, |vector|)
    ensures Fits(Strip(node), |vector|)
    ensures ClassOf(Strip(node), vector) == Learner.Walk(node, vector).className
  {
    if node.Internal? {
      ClassOfStripped(node.left, vector);
      ClassOfStripped(node.right, vector);
    }
  }

  /** The learner's state, as `DecisionTree` keeps it. */
  class DecisionTree {
    var root: Option<Node>
    var records: seq<Record>
    var attributes: seq<int>
    var numberRecords: int
    var numberAttributes: int
    var numberClasses: int

    /** An empty learner. */
    constructor ()
      ensures root == None && records == [] && attributes == []
      ensures numberRecords == 0 && numberAttributes == 0 && numberClasses == 0
    {
      root := None;
      records := [];
      attributes := [];
      numberRecords := 0;
      numberAttributes := 0;
      numberClasses := 0;
    }

    /**
     * `loadTrainingData`, with the parsed records given in place of the
     * file: the counts are taken over and the candidates are 1..width.
     */
    method LoadTrainingData(data: seq<Record>, numberAttributes: nat, numberClasses: int)
      requires forall r :: r in data ==> |r.attributes| == numberAttributes
      modifies this
      ensures records == data && numberRecords == |data|
      ensures this.numberAttributes == numberAttributes && this.numberClasses == numberClasses
      ensures attributes == Learner.AttributeList(numberAttributes)
      ensures HasAttributes(records, attributes)
      ensures root == old(root)
    {
      this.numberRecords := |data|;
      this.numberAttributes := numberAttributes;
      this.numberClasses := numberClasses;
      records := data;
      attributes := [];
      var i := 0;
      while i < numberAttributes
        invariant 0 <= i <= numberAttributes
        invariant attributes == Learner.AttributeList(i)
        invariant records == data && numberRecords == |data| && root == old(root)
        invariant this.numberAttributes == numberAttributes && this.numberClasses == numberClasses
      {
        attributes := attributes + [i + 1];
        i := i + 1;
      }
      forall a | a in attributes
        ensures HasAttribute(records, a)
      {
      }
    }

    /** `buildTree`: grow the tree from all records and candidate attributes. */
    method BuildTree(ghost choose: Learner.Chooser)
      requires 0 <= numberClasses && Learner.IsBestCondition(choose, Gini, numberClasses)
      requires Learner.Growable(records, numberClasses, attributes, |records|)
      modifies this
      ensures records == old(records) && attributes == old(attributes) && numberRecords == old(numberRecords)
      ensures numberAttributes == old(numberAttributes) && numberClasses == old(numberClasses)
      ensures root == Some(Build(choose, records, numberClasses, attributes))
    {
      var node := BuildNode(records, attributes, choose);
      root := Some(node);
    }

    /** `build(records, attributes)` under the Gini index. */
    method BuildNode(records: seq<Record>, attributes: seq<int>, ghost choose: Learner.Chooser) returns (node: Node)
      requires 0 <= numberClasses && Learner.IsBestCondition(choose, Gini, numberClasses)
      requires Learner.Growable(records, numberClasses, attributes, |records|)
      ensures node == Build(choose, records, numberClasses, attributes)
      decreases |attributes|
    {
      var c: nat := numberClasses;
      assert records[0] in records;
      var same := SameClass(records);
      if same {
        node := NewNode("leaf", records[0].className, None, None);
      } else if |attributes| == 0 {
        var className := MajorityClass(records, c);
        node := NewNode("leaf", className, None, None);
      } else {
        var condition := Learner.DecisionTree1.ChooseCondition(Gini, records, c, attributes, choose);
        var leftRecords := Collect(records, condition, 0);
        var rightRecords := Collect(records, condition, 1);
        if |leftRecords| == 0 || |rightRecords| == 0 {
          var className := MajorityClass(records, c);
          node := NewNode("leaf", className, None, None);
        } else {
          var leftAttributes := Learner.RemoveFirst(attributes, condition);
          var rightAttributes := Learner.RemoveFirst(attributes, condition);
          SubListProperties(leftRecords, records, c);
          SubListProperties(rightRecords, records, c);
          var left := BuildNode(leftRecords, leftAttributes, choose);
          var right := BuildNode(rightRecords, rightAttributes, choose);
          node := NewNode("internal", condition, Some(left), Some(right));
        }
      }
    }

    /** `majorityClass`: only the smallest class among those with the most records. */
    static method MajorityClass(records: seq<Record>, c: nat) returns (className: int)
      requires Labelled(records, c) && c >= 1
      ensures 1 <= className <= c
      ensures forall x :: 1 <= x <= c ==> Occurrences(Labels(records), x) <= Occurrences(Labels(records), className)
      ensures forall x :: 1 <= x < className ==> Occurrences(Labels(records), x) < Occurrences(Labels(records), className)
    {
      var count;
      className, count := Records.MajorityClass(records, c);
    }

    /** `classify(attributes)`: the class of the leaf the vector reaches. */
    method Classify(vector: seq<int>) returns (className: int)
      requires root.Some? && Fits(root.value, |vector|)
      ensures className == ClassOf(root.value, vector)
    {
      var current := root.value;
      while current.Internal?
        invariant Fits(current, |vector|) && ClassOf(current, vector) == ClassOf(root.value, vector)
        decreases current
      {
        if vector[current.condition - 1] == 0 {
          current := current.left;
        } else {
          current := current.right;
        }
      }
      className := current.className;
    }
  }
}
