/**
 * The k-nearest-neighbour classifier `NearestNeighbor2`: the same learner
 * as `NearestNeighbor1` (resettable `k` and rule, the `1 / d` weighting,
 * training and leave-one-out errors), except that both validations return
 * their error rate, and the classes are "low", "medium", "high" and
 * "undetermined".
 */
module NearestNeighbor2 {
  import opened Scores
  import opened Knn

  /** The classifier's state, as `NearestNeighbor2` keeps it; the missing list and rule are empty. */
  class NearestNeighbor2 {
    var records: seq<Sample>
    var numberRecords: int
    var numberAttributes: int
    var numberClasses: int
    var numberNeighbors: int
    var majorityRule: string

    /** An empty classifier. */
    constructor ()
      ensures records == [] && majorityRule == ""
      ensures numberRecords == 0 && numberAttributes == 0 && numberClasses == 0 && numberNeighbors == 0
    {
      records := [];
      numberRecords := 0;
      numberAttributes := 0;
      numberClasses := 0;
      numberNeighbors := 0;
      majorityRule := "";
    }

    /** `setNumberNeighbors(k)`: only `k` changes. */
    method SetNumberNeighbors(k: int)
      modifies this
      ensures numberNeighbors == k
      ensures records == old(records) && majorityRule == old(majorityRule) && numberRecords == old(numberRecords)
      ensures numberAttributes == old(numberAttributes) && numberClasses == old(numberClasses)
    {
      numberNeighbors := k;
    }

    /** `setMajorityRule(rule)`: "weighted" is kept, any other input becomes "unweighted". */
    method SetMajorityRule(rule: string)
      modifies this
      ensures majorityRule == if rule == "weighted" then "weighted" else "unweighted"
      ensures records == old(records) && numberNeighbors == old(numberNeighbors) && numberRecords == old(numberRecords)
      ensures numberAttributes == old(numberAttributes) && numberClasses == old(numberClasses)
    {
      if rule == "weighted" {
        majorityRule := "weighted";
      } else {
        majorityRule := "unweighted";
      }
    }

    /**
     * `loadTrainingData` once the file is read: the counts, `k` and the
     * rule from its header, and `data`, the records in file order.
     */
    method LoadTrainingData(data: seq<Sample>, numberAttributes: int, numberClasses: int, numberNeighbors: int, majorityRule: string)
      modifies this
      ensures records == data && numberRecords == |data|
      ensures this.numberAttributes == numberAttributes && this.numberClasses == numberClasses
      ensures this.numberNeighbors == numberNeighbors && this.majorityRule == majorityRule
    {
      this.numberRecords := |data|;
      this.numberAttributes := numberAttributes;
      this.numberClasses := numberClasses;
      this.numberNeighbors := numberNeighbors;
      this.majorityRule := majorityRule;
      records := data;
    }

    /** The loaded records, with their count and classes in 1..numberClasses. */
    predicate Loaded()
      reads this
    {
      0 <= numberClasses && numberRecords == |records| && Labelled(records, numberClasses)
    }

    /** What `classify` needs: the loaded records and no more neighbours than records. */
    predicate Ready()
      reads this
    {
      Loaded() && numberNeighbors <= |records|
    }

    /** `classify(attributes)`: the vote of the `k` nearest loaded records. */
    method Classify(attributes: seq<real>, metric: Metric) returns (className: int)
      requires Ready() && NonNegative(metric)
      ensures className == Predict(records, attributes, metric, numberNeighbors, numberClasses, majorityRule, Reciprocal)
    {
      className := Knn.Classify(records, attributes, metric, numberNeighbors, numberClasses, majorityRule, Reciprocal);
    }

    /** `classify(attributes, cutOutRecords)`: the vote of the `k` nearest among `cutOutRecords`. */
    method ClassifyAmong(attributes: seq<real>, cutOutRecords: seq<Sample>, metric: Metric) returns (className: int)
      requires 0 <= numberClasses && Labelled(cutOutRecords, numberClasses) && numberNeighbors <= |cutOutRecords|
      requires NonNegative(metric)
      ensures className == Predict(cutOutRecords, attributes, metric, numberNeighbors, numberClasses, majorityRule, Reciprocal)
    {
      className := Knn.Classify(cutOutRecords, attributes, metric, numberNeighbors, numberClasses, majorityRule, Reciprocal);
    }

    /** A round of `trainingError`'s loop: `classify` applied to record `i`'s own attributes. */
    method ClassifyRecord(i: nat, metric: Metric) returns (className: int)
      requires Ready() && NonNegative(metric) && i < |records|
      ensures className == TrainingPredictions(records, metric, numberNeighbors, numberClasses, majorityRule, Reciprocal)[i]
    {
      className := Classify(records[i].attributes, metric);
      TrainingPredictionAt(records, metric, numberNeighbors, numberClasses, majorityRule, Reciprocal, i);
    }

    /**
     * `trainingError`: returns the percentage of loaded records whose class
     * differs from the vote of their `k` nearest records, themselves included.
     */
    method TrainingError(metric: Metric) returns (errorRate: Score)
      requires Loaded() && NonNegative(metric) && (numberNeighbors <= numberRecords || numberRecords == 0)
      ensures errorRate == Rate(Mistakes(TrainingPredictions(records, metric, numberNeighbors, numberClasses, majorityRule, Reciprocal), records, |records|), |records|)
    {
      ghost var predicted := TrainingPredictions(records, metric, numberNeighbors, numberClasses, majorityRule, Reciprocal);
      var numberErrors := 0;
      var i := 0;
      while i < numberRecords
        invariant 0 <= i <= numberRecords
        invariant numberErrors == Mistakes(predicted, records, i)
      {
        var predictedClass := ClassifyRecord(i, metric);
        if predictedClass != records[i].className {
          numberErrors := numberErrors + 1;
        }
        i := i + 1;
      }
      errorRate := Rate(numberErrors, numberRecords);
    }

    /**
     * A round of `leaveOneOutValidate`'s loop: record `i` is taken out of a
     * copy of the records and classified among the rest.
     */
    method ClassifyLeftOut(i: nat, metric: Metric) returns (className: int)
      requires Ready() && NonNegative(metric) && numberNeighbors < numberRecords && i < |records|
      ensures className == LeaveOneOutPredictions(records, metric, numberNeighbors, numberClasses, majorityRule, Reciprocal)[i]
    {
      var theOne := records[i];
      var cutOutRecords := CutOut(records, i);
      LeaveOneOutPredictionAt(records, metric, numberNeighbors, numberClasses, majorityRule, Reciprocal, i);
      className := ClassifyAmong(theOne.attributes, cutOutRecords, metric);
    }

    /**
     * `leaveOneOutValidate`: returns the percentage of loaded records whose
     * class differs from the vote of their `k` nearest among a copy of the
     * records without them.
     */
    method LeaveOneOutValidate(metric: Metric) returns (errorRate: Score)
      requires Loaded() && NonNegative(metric) && (numberNeighbors < numberRecords || numberRecords == 0)
      ensures errorRate == Rate(Mistakes(LeaveOneOutPredictions(records, metric, numberNeighbors, numberClasses, majorityRule, Reciprocal), records, |records|), |records|)
    {
      ghost var predicted := LeaveOneOutPredictions(records, metric, numberNeighbors, numberClasses, majorityRule, Reciprocal);
      var numberErrors := 0;
      var i := 0;
      while i < numberRecords
        invariant 0 <= i <= numberRecords
        invariant numberErrors == Mistakes(predicted, records, i)
      {
        var predictedClass := ClassifyLeftOut(i, metric);
        if predictedClass != records[i].className {
          numberErrors := numberErrors + 1;
        }
        i := i + 1;
      }
      errorRate := Rate(numberErrors, numberRecords);
    }
  }

  /** `convert(label)`: "low" is class 1, "medium" class 2, "high" class 3, any other label class 4. */
  function ClassValue(name: string): (value: int)
    ensures 1 <= value <= 4
    ensures value == 1 <==> name == "low"
    ensures value == 2 <==> name == "medium"
    ensures value == 3 <==> name == "high"
  {
    if name == "low" then 1
    else if name == "medium" then 2
    else if name == "high" then 3
    else 4
  }

  /** `convert(value)`: class 1 is "low", 2 "medium", 3 "high", any other number "undetermined". */
  function ClassLabel(value: int): (name: string)
    ensures name in {"low", "medium", "high", "undetermined"}
    ensures name == "undetermined" <==> !(1 <= value <= 3)
  {
    if value == 1 then "low"
    else if value == 2 then "medium"
    else if value == 3 then "high"
    else "undetermined"
  }

  /**
   * The class maps are inverse to each other: every class 1..4 survives the
   * round trip through its label, any other number comes back as 4, and
   * each of the four labels survives the round trip through its number.
   */
  lemma ClassRoundTrip(value: int, name: string)
    ensures ClassValue(ClassLabel(value)) == if 1 <= value <= 4 then value else 4
    ensures name in {"low", "medium", "high", "undetermined"} ==> ClassLabel(ClassValue(name)) == name
  {
  }
}
