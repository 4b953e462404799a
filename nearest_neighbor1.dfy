/**
 * The k-nearest-neighbour classifier `NearestNeighbor1`: `k` and the
 * majority rule can be reset after loading, the weighted vote gives a
 * neighbour at distance `d` the weight `1 / d` (`1 / 0.001` at distance 0),
 * and the training error and the leave-one-out error are computed over the
 * loaded records. The classes are "good", "average" and "bad".
 */
module NearestNeighbor1 {
  import opened Scores
  import opened Knn

  /** The classifier's state, as `NearestNeighbor1` keeps it; the missing list and rule are empty. */
  class NearestNeighbor1 {
    var records: seq<Sample>
    var numberRecords: int
    var numberAttributes: int
    var numberClasses: int
    var numberNeighbors: int
    var majorityRule: string

    /** An empty classifier. */
    constructor ()
      ensures records == [] && majorityRule == ""
      ensures numberRecords == 0 && numberAttributes == 0 && numberClasses == 0 && numberNeighbors == 0
    {
      records := [];
      numberRecords := 0;
      numberAttributes := 0;
      numberClasses := 0;
      numberNeighbors := 0;
      majorityRule := "";
    }

    /** `setNumberNeighbors(k)`: only `k` changes. */
    method SetNumberNeighbors(k: int)
      modifies this
      ensures numberNeighbors == k
      ensures records == old(records) && majorityRule == old(majorityRule) && numberRecords == old(numberRecords)
      ensures numberAttributes == old(numberAttributes) && numberClasses == old(numberClasses)
    {
      numberNeighbors := k;
    }

    /** `setMajorityRule(rule)`: "weighted" is kept, any other input becomes "unweighted". */
    method SetMajorityRule(rule: string)
      modifies this
      ensures majorityRule == if rule == "weighted" then "weighted" else "unweighted"
      ensures records == old(records) && numberNeighbors == old(numberNeighbors) && numberRecords == old(numberRecords)
      ensures numberAttributes == old(numberAttributes) && numberClasses == old(numberClasses)
    {
      if rule == "weighted" {
        majorityRule := "weighted";
      } else {
        majorityRule := "unweighted";
      }
    }

    /**
     * `loadTrainingData` once the file is read: the counts, `k` and the
     * rule from its header, and `data`, the records in file order.
     */
    method LoadTrainingData(data: seq<Sample>, numberAttributes: int, numberClasses: int, numberNeighbors: int, majorityRule: string)
      modifies this
      ensures records == data && numberRecords == |data|
      ensures this.numberAttributes == numberAttributes && this.numberClasses == numberClasses
      ensures this.numberNeighbors == numberNeighbors && this.majorityRule == majorityRule
    {
      this.numberRecords := |data|;
      this.numberAttributes := numberAttributes;
      this.numberClasses := numberClasses;
      this.numberNeighbors := numberNeighbors;
      this.majorityRule := majorityRule;
      records := data;
    }

    /** The loaded records, with their count and classes in 1..numberClasses. */
    predicate Loaded()
      reads this
    {
      0 <= numberClasses && numberRecords == |records| && Labelled(records, numberClasses)
    }

    /** What `classify` needs: the loaded records and no more neighbours than records. */
    predicate Ready()
      reads this
    {
      Loaded() && numberNeighbors <= |records|
    }

    /** `classify(attributes)`: the vote of the `k` nearest loaded records. */
    method Classify(attributes: seq<real>, metric: Metric) returns (className: int)
      requires Ready() && NonNegative(metric)
      ensures className == Predict(records, attributes, metric, numberNeighbors, numberClasses, majorityRule, Reciprocal)
    {
      className := Knn.Classify(records, attributes, metric, numberNeighbors, numberClasses, majorityRule, Reciprocal);
    }

    /** `classify(attributes, cutOutRecords)`: the vote of the `k` nearest among `cutOutRecords`. */
    method ClassifyAmong(attributes: seq<real>, cutOutRecords: seq<Sample>, metric: Metric) returns (className: int)
      requires 0 <= numberClasses && Labelled(cutOutRecords, numberClasses) && numberNeighbors <= |cutOutRecords|
      requires NonNegative(metric)
      ensures className == Predict(cutOutRecords, attributes, metric, numberNeighbors, numberClasses, majorityRule, Reciprocal)
    {
      className := Knn.Classify(cutOutRecords, attributes, metric, numberNeighbors, numberClasses, majorityRule, Reciprocal);
    }

    /** A round of `trainingError`'s loop: `classify` applied to record `i`'s own attributes. */
    method ClassifyRecord(i: nat, metric: Metric) returns (className: int)
      requires Ready() && NonNegative(metric) && i < |records|
      ensures className == TrainingPredictions(records, metric, numberNeighbors, numberClasses, majorityRule, Reciprocal)[i]
    {
      className := Classify(records[i].attributes, metric);
      TrainingPredictionAt(records, metric, numberNeighbors, numberClasses, majorityRule, Reciprocal, i);
    }

    /**
     * `trainingError`: the percentage of loaded records whose class differs
     * from the vote of their `k` nearest records, themselves included; the
     * rate it prints.
     */
    method TrainingError(metric: Metric) returns (errorRate: Score)
      requires Loaded() && NonNegative(metric) && (numberNeighbors <= numberRecords || numberRecords == 0)
      ensures errorRate == Rate(Mistakes(TrainingPredictions(records, metric, numberNeighbors, numberClasses, majorityRule, Reciprocal), records, |records|), |records|)
    {
      ghost var predicted := TrainingPredictions(records, metric, numberNeighbors, numberClasses, majorityRule, Reciprocal);
      var numberErrors := 0;
      var i := 0;
      while i < numberRecords
        invariant 0 <= i <= numberRecords
        invariant numberErrors == Mistakes(predicted, records, i)
      {
        var predictedClass := ClassifyRecord(i, metric);
        if predictedClass != records[i].className {
          numberErrors := numberErrors + 1;
        }
        i := i + 1;
      }
      errorRate := Rate(numberErrors, numberRecords);
    }

    /**
     * A round of `leaveOneOutValidate`'s loop: record `i` is taken out of a
     * copy of the records and classified among the rest.
     */
    method ClassifyLeftOut(i: nat, metric: Metric) returns (className: int)
      requires Ready() && NonNegative(metric) && numberNeighbors < numberRecords && i < |records|
      ensures className == LeaveOneOutPredictions(records, metric, numberNeighbors, numberClasses, majorityRule, Reciprocal)[i]
    {
      var theOne := records[i];
      var cutOutRecords := CutOut(records, i);
      LeaveOneOutPredictionAt(records, metric, numberNeighbors, numberClasses, majorityRule, Reciprocal, i);
      className := ClassifyAmong(theOne.attributes, cutOutRecords, metric);
    }

    /**
     * `leaveOneOutValidate`: the percentage of loaded records whose class
     * differs from the vote of their `k` nearest among a copy of the
     * records without them; the rate it prints.
     */
    method LeaveOneOutValidate(metric: Metric) returns (errorRate: Score)
      requires Loaded() && NonNegative(metric) && (numberNeighbors < numberRecords || numberRecords == 0)
      ensures errorRate == Rate(Mistakes(LeaveOneOutPredictions(records, metric, numberNeighbors, numberClasses, majorityRule, Reciprocal), records, |records|), |records|)
    {
      ghost var predicted := LeaveOneOutPredictions(records, metric, numberNeighbors, numberClasses, majorityRule, Reciprocal);
      var numberErrors := 0;
      var i := 0;
      while i < numberRecords
        invariant 0 <= i <= numberRecords
        invariant numberErrors == Mistakes(predicted, records, i)
      {
        var predictedClass := ClassifyLeftOut(i, metric);
        if predictedClass != records[i].className {
          numberErrors := numberErrors + 1;
        }
        i := i + 1;
      }
      errorRate := Rate(numberErrors, numberRecords);
    }
  }

  /** `convert(label)`: "good" is class 1, "average" class 2, any other label class 3. */
  function ClassValue(name: string): (value: int)
    ensures 1 <= value <= 3
    ensures value == 1 <==> name == "good"
    ensures value == 2 <==> name == "average"
  {
    if name == "good" then 1
    else if name == "average" then 2
    else 3
  }

  /** `convert(value)`: class 1 is "good", class 2 "average", any other number "bad". */
  function ClassLabel(value: int): (name: string)
    ensures name in {"good", "average", "bad"}
  {
    if value == 1 then "good"
    else if value == 2 then "average"
    else "bad"
  }

  /**
   * The class maps are inverse to each other: every class 1..3 survives the
   * round trip through its label, any other number comes back as 3, and
   * each of the three labels survives the round trip through its number.
   */
  lemma ClassRoundTrip(value: int, name: string)
    ensures ClassValue(ClassLabel(value)) == if 1 <= value <= 3 then value else 3
    ensures name in {"good", "average", "bad"} ==> ClassLabel(ClassValue(name)) == name
  {
  }
}
