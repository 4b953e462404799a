/**
 * The hard-coded label maps of both decision-tree learners: attribute
 * labels to 0/1 values, and the risk classes to the numbers 1..4 and back.
 */
module RiskLabels {

  /** The label that maps to 0 in each attribute column; column 5 and beyond use "works". */
  function ZeroLabel(column: int): string
  {
    if column == 1 then "highschool"
    else if column == 2 then "smoker"
    else if column == 3 then "married"
    else if column == 4 then "male"
    else "works"
  }

  /** `convert(label, column)`: 0 for the column's own label, 1 for any other. */
  function AttributeValue(name: string, column: int): (value: int)
    ensures value == 0 || value == 1
    ensures value == 0 <==> name == ZeroLabel(column)
  {
    if column == 1 then (if name == "highschool" then 0 else 1)
    else if column == 2 then (if name == "smoker" then 0 else 1)
    else if column == 3 then (if name == "married" then 0 else 1)
    else if column == 4 then (if name == "male" then 0 else 1)
    else if name == "works" then 0
    else 1
  }

  /** `convert(label)`: the class number of a risk label; unknown labels are class 4. */
  function ClassValue(name: string): (value: int)
    ensures 1 <= value <= 4
  {
    if name == "highrisk" then 1
    else if name == "mediumrisk" then 2
    else if name == "lowrisk" then 3
    else 4
  }

  /** `convert(value)`: the risk label of a class number; anything but 1..3 is "undetermined". */
  function ClassLabel(value: int): (name: string)
    ensures name in {"highrisk", "mediumrisk", "lowrisk", "undetermined"}
  {
    if value == 1 then "highrisk"
    else if value == 2 then "mediumrisk"
    else if value == 3 then "lowrisk"
    else "undetermined"
  }

  /**
   * The class maps are inverse to each other: every class 1..4 survives the
   * round trip through its name, any other number comes back as 4, and
   * every name the maps produce survives the round trip through its number.
   */
  lemma ClassRoundTrip(value: int, name: string)
    ensures ClassValue(ClassLabel(value)) == if 1 <= value <= 4 then value else 4
    ensures name in {"highrisk", "mediumrisk", "lowrisk", "undetermined"} ==> ClassLabel(ClassValue(name)) == name
  {
  }
}
