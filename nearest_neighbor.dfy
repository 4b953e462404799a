/**
 * The first k-nearest-neighbour classifier `NearestNeighbor`: `k` and the
 * majority rule come with the training data, and the weighted vote gives a
 * neighbour at distance `d` the weight `1 / (d + 0.001)`. The classes are
 * "high", "medium" and "low".
 */
module NearestNeighbor {
  import opened Knn

  /** The classifier's state, as `NearestNeighbor` keeps it; the missing list and rule are empty. */
  class NearestNeighbor {
    var records: seq<Sample>
    var numberRecords: int
    var numberAttributes: int
    var numberClasses: int
    var numberNeighbors: int
    var majorityRule: string

    /** An empty classifier. */
    constructor ()
      ensures records == [] && majorityRule == ""
      ensures numberRecords == 0 && numberAttributes == 0 && numberClasses == 0 && numberNeighbors == 0
    {
      records := [];
      numberRecords := 0;
      numberAttributes := 0;
      numberClasses := 0;
      numberNeighbors := 0;
      majorityRule := "";
    }

    /**
     * `loadTrainingData` once the file is read: the counts, `k` and the
     * rule from its header, and `data`, the records in file order.
     */
    method LoadTrainingData(data: seq<Sample>, numberAttributes: int, numberClasses: int, numberNeighbors: int, majorityRule: string)
      modifies this
      ensures records == data && numberRecords == |data|
      ensures this.numberAttributes == numberAttributes && this.numberClasses == numberClasses
      ensures this.numberNeighbors == numberNeighbors && this.majorityRule == majorityRule
    {
      this.numberRecords := |data|;
      this.numberAttributes := numberAttributes;
      this.numberClasses := numberClasses;
      this.numberNeighbors := numberNeighbors;
      this.majorityRule := majorityRule;
      records := data;
    }

    /** What `classify` needs: the loaded records, classes in 1..numberClasses, and no more neighbours than records. */
    predicate Ready()
      reads this
    {
      0 <= numberClasses && numberRecords == |records| && Labelled(records, numberClasses) && numberNeighbors <= |records|
    }

    /** `classify(attributes)`: the vote of the `k` nearest loaded records, weighted by `1 / (d + 0.001)`. */
    method Classify(attributes: seq<real>, metric: Metric) returns (className: int)
      requires Ready() && NonNegative(metric)
      ensures className == Predict(records, attributes, metric, numberNeighbors, numberClasses, majorityRule, Offset)
    {
      className := Knn.Classify(records, attributes, metric, numberNeighbors, numberClasses, majorityRule, Offset);
    }
  }

  /** `convert(label)`: "high" is class 1, "medium" class 2, any other label class 3. */
  function ClassValue(name: string): (value: int)
    ensures 1 <= value <= 3
    ensures value == 1 <==> name == "high"
    ensures value == 2 <==> name == "medium"
  {
    if name == "high" then 1
    else if name == "medium" then 2
    else 3
  }

  /** `convert(value)`: class 1 is "high", class 2 "medium", any other number "low". */
  function ClassLabel(value: int): (name: string)
    ensures name in {"high", "medium", "low"}
  {
    if value == 1 then "high"
    else if value == 2 then "medium"
    else "low"
  }

  /**
   * The class maps are inverse to each other: every class 1..3 survives the
   * round trip through its label, any other number comes back as 3, and
   * each of the three labels survives the round trip through its number.
   */
  lemma ClassRoundTrip(value: int, name: string)
    ensures ClassValue(ClassLabel(value)) == if 1 <= value <= 3 then value else 3
    ensures name in {"high", "medium", "low"} ==> ClassLabel(ClassValue(name)) == name
  {
  }
}
