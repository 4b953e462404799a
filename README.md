# Decision-tree and k-nearest-neighbour classifiers, modelled in Dafny

This project models two families of small Java classifiers and proves what
they compute.

**Decision trees.** `DecisionTree1` is the full learner and `DecisionTree`
the older, Gini-only one. Training records are vectors of 0/1 attributes,
each with a class numbered from 1.
- `build` grows a binary tree top-down. At each node it splits on the
  candidate attribute whose split has the lowest weighted impurity
  (`evaluate`). The impurity rule is "Gini", "Class", or Shannon's.
- It makes a leaf when the records share one class, when no attribute is
  left, or when the chosen split leaves one side empty.
- `DecisionTree1`'s leaves also carry two confidence percentages.
- `classify` walks a vector down to a leaf.
- `trainingError` and `leaveOneOutValidation` return the percentage of
  misclassified records. The leave-one-out run removes each record in turn
  with `cutRecord` and grows a fresh tree without it.

**k-nearest neighbours.** `NearestNeighbor`, `NearestNeighbor1` and
`NearestNeighbor2` classify a vector of reals by the classes of its `k`
nearest training records.
- `classify` fills the parallel arrays `distance` and `id`.
- `nearestNeighbor` moves the `k` smallest distances to the front with a
  partial selection sort that swaps both arrays in lock-step.
- `majority` tallies the neighbours' classes, by count or by a weight
  falling with distance, and answers the smallest class with the largest
  total.
- `NearestNeighbor1` and `NearestNeighbor2` add setters for `k` and the
  rule, and the training and leave-one-out error rates.

Each classifier has hard-coded label maps, and these are modelled too.

Layout:
- `scores.dfy` holds Java's double arithmetic on the reachable cases. NaN
  is a value of its own, and `<` is false against NaN.
- `votes.dfy` holds the frequency tally and the first-maximum scan.
- `records.dfy` holds the tree learner's records with `collect`,
  `sameClass` and `majorityClass`.
- `impurity.dfy` holds `entropy`, `evaluate` and `bestCondition`.
- `decision_tree1.dfy` and `decision_tree.dfy` hold the two learners.
- `risk_labels.dfy` holds their label maps.
- `knn.dfy` holds the shared k-NN core.
- `nearest_neighbor.dfy`, `nearest_neighbor1.dfy` and
  `nearest_neighbor2.dfy` hold the three k-NN classes.

How the code is proved:
- Loops that change state are `method`s proved against specification
  functions: `Build`, `Walk`, `Impurity`, `SplitScore`, `BestAttribute`,
  `Passes`, `Predict`, `Mistakes`.
- Lemmas prove what those functions promise.
- The learners' state is a `class` per Java class.

The older learner's `sameClass`, `collect`, `majorityClass`, `entropy`,
`evaluate` and `bestCondition` (Decision-tree/DecisionTree.java:165-284)
are the Gini cases of the members of `records.dfy` and `impurity.dfy`
cited below for `DecisionTree1`; the two learners share their label maps
(Decision-tree/DecisionTree.java:443-502).

## Model

| member | source | states |
|---|---|---|
| Scores.Scale | Decision-tree/case1/DecisionTree1.java:343-344 | `x * size / n` is NaN exactly when `x` is NaN or the list is empty; a share of a non-negative value lies between 0 and the value, 0 for an empty side and the value for the whole list |
| Scores.Rate | Decision-tree/case1/DecisionTree1.java:567 | `100.0 * errors / n` is NaN exactly when there is no record, otherwise lies in [0, 100], is 0 exactly with no error and 100 exactly when every record is an error |
| Votes.Tally | K-neareast-neighbour/NearestNeighbor.java:166-186 | the frequency table has one entry per class, and non-negative votes give non-negative entries |
| Votes.TallySum | K-neareast-neighbour/NearestNeighbor.java:172-186 | the table holds exactly the total of the votes handed out |
| Votes.UnweightedTotal | K-neareast-neighbour/NearestNeighbor.java:174-178 | an unweighted vote hands out one vote per neighbour, so the frequencies sum to `k` |
| Votes.CountsOfTally | K-neareast-neighbour/NearestNeighbor.java:174-178 | in an unweighted vote each entry is the number of neighbours of its class |
| Votes.ArgMax | K-neareast-neighbour/NearestNeighbor.java:189-192 | the scan with strict `>` lands on a maximal entry that is larger than every entry before it (the first maximum); position 0 for an empty table |
| Votes.ArgMaxUnique | K-neareast-neighbour/NearestNeighbor.java:189-192 | any position with the first-maximum properties is the one the scan finds |
| Votes.Vote | K-neareast-neighbour/NearestNeighbor.java:189-194 | the answer `maxIndex + 1` is a class in 1..c whose total is largest and strictly larger than every smaller class's; 1 when there are no classes |
| Votes.UnweightedWinner | K-neareast-neighbour/NearestNeighbor.java:174-194 | the unweighted winner is the smallest class with the most neighbours |
| Records.Labels | Decision-tree/case1/DecisionTree1.java:276-277 | the class list of the records, position by position |
| Records.Collected | Decision-tree/DecisionTree.java:199-212 | `collect` keeps only records of the list that have value `v` at attribute `a`, no more of them than the list holds |
| Records.CollectedComplete | Decision-tree/DecisionTree.java:199-212 | no record with value `v` at `a` is left out |
| Records.CollectedPartition | Decision-tree/DecisionTree.java:199-212 | for 0/1 attributes the value-0 and value-1 collections together hold every record exactly as often as the input, and their sizes add up to the list's |
| Records.Collect | Decision-tree/case1/DecisionTree1.java:291-303 | the append loop yields the `collect` list |
| Records.SameClass | Decision-tree/case1/DecisionTree1.java:254-261 | the loop answers true exactly when every record has the first record's class |
| Records.IsPure | Decision-tree/case1/DecisionTree1.java:254-261 | a list is pure exactly when every two of its records have the same class |
| Records.Counts | Decision-tree/case1/DecisionTree1.java:273-277 | entry `j` of the frequency table is the number of records of class `j + 1` |
| Records.CountsSum | Decision-tree/case1/DecisionTree1.java:273-277 | the frequencies of a labelled list add up to its size |
| Records.Majority | Decision-tree/case1/DecisionTree1.java:270-286 | `[label, count]`: the smallest class with the largest frequency and that frequency; `count <= |records|`, and `count >= 1` for a non-empty list |
| Records.MajorityIsFirstMaximum | Decision-tree/case1/DecisionTree1.java:280-285 | any class with the first-maximum properties is the majority |
| Records.PureMajority | Decision-tree/case1/DecisionTree1.java:270-286 | the majority of a pure list is its class, with every record |
| Records.MajorityAllIsPure | Decision-tree/case1/DecisionTree1.java:270-286 | a majority count equal to the list size means the list is pure |
| Records.ClassCounts | Decision-tree/case1/DecisionTree1.java:271-277 | the counting loops fill `frequency[j]` with the number of records of class `j + 1` |
| Records.MajorityClass | Decision-tree/case1/DecisionTree1.java:270-286 | the loops return the majority pair |
| Impurity.RuleNamed | Decision-tree/case1/DecisionTree1.java:359-396 | "Gini" selects Gini, "Class" the class-error rule, any other name Shannon's |
| Impurity.GiniIndex | Decision-tree/case1/DecisionTree1.java:360-377 | `1 - sum of squared proportions` lies in [0, 1) on a non-empty list and is 0 exactly when the list is pure; NaN on an empty list with classes |
| Impurity.SquareSumAtLeast | Decision-tree/case1/DecisionTree1.java:370-377 | the square of the sum of `n` proportions is at most `n` times the sum of their squares |
| Impurity.GiniAtMost | Decision-tree/case1/DecisionTree1.java:360-377 | on a non-empty list with `c` classes the Gini index is at most `1 - 1/c`, the value of an even spread |
| Impurity.GiniSquareSumOne | Decision-tree/case1/DecisionTree1.java:370-377 | the squared proportions sum to 1 exactly when the list is pure |
| Impurity.ClassErrorIndex | Decision-tree/case1/DecisionTree1.java:380-394 | the "Class" rule is one minus the largest raw class count (not a proportion): 1 on an empty list, at most 0 otherwise |
| Impurity.ClassErrorPure | Decision-tree/case1/DecisionTree1.java:380-394 | on a pure list of `n` records the "Class" rule gives `1 - n` |
| Impurity.Impurity | Decision-tree/case1/DecisionTree1.java:356-414 | under "Gini" a non-empty list scores in [0, 1) (`GiniIndex` adds that 0 means pure), while an empty one is NaN exactly when there are classes; under "Class" the score is never NaN, 1 on an empty list and at most 0 otherwise |
| Impurity.SplitScore | Decision-tree/case1/DecisionTree1.java:329-348 | an empty list scores NaN (`0 / 0`) |
| Impurity.SplitScoreSides | Decision-tree/case1/DecisionTree1.java:329-348 | `evaluate` is `H(left) * |left| / n + H(right) * |right| / n` for the value-0 and value-1 sides, whose sizes add up to `n` |
| Impurity.GiniSplit | Decision-tree/case1/DecisionTree1.java:329-348 | under Gini a split is scored (not NaN) exactly when both sides are non-empty, and then its score lies in [0, 1) |
| Impurity.ClassErrorSplit | Decision-tree/case1/DecisionTree1.java:329-348 | under the "Class" rule every split of a non-empty list is scored and its score is at most 0 |
| Impurity.MinIndex | Decision-tree/case1/DecisionTree1.java:308-324 | the scan with strict `<` keeps a NaN first score; otherwise it lands on a smallest non-NaN score, the earliest one on ties |
| Impurity.MinIndexUnique | Decision-tree/case1/DecisionTree1.java:308-324 | any position with those properties is the scan's |
| Impurity.ScanStep | Decision-tree/case1/DecisionTree1.java:314-321 | one round of the scan keeps its invariant |
| Impurity.ScanDone | Decision-tree/case1/DecisionTree1.java:314-323 | the finished scan is at `MinIndex` |
| Impurity.SplitScores | Decision-tree/case1/DecisionTree1.java:314-315 | entry `i` is `evaluate` of the `i`-th candidate |
| Impurity.BestAttribute | Decision-tree/case1/DecisionTree1.java:308-324 | the chosen attribute is a candidate; it is the first one when its score is NaN, and otherwise sits at a position whose score is no larger than any other non-NaN score and strictly smaller than every earlier non-NaN score, so ties go to the earliest |
| Impurity.BestCondition | Decision-tree/case1/DecisionTree1.java:308-324 | the loop returns `BestAttribute` over the candidates' `evaluate` scores |
| Impurity.ClassFrequencies | Decision-tree/case1/DecisionTree1.java:362-368 | the counting loops of `entropy` store the class frequencies |
| Impurity.CountClasses | Decision-tree/case1/DecisionTree1.java:366-368 | the counting loop turns a zeroed table into the class frequencies |
| Impurity.Entropy | Decision-tree/case1/DecisionTree1.java:356-414 | the loops compute the rule's impurity |
| Impurity.GiniEntropy | Decision-tree/case1/DecisionTree1.java:360-377 | normalising in place, then summing squares, computes the Gini index, NaN included |
| Impurity.SumOfSquares | Decision-tree/case1/DecisionTree1.java:373-375 | the summing loop gives the sum of squares, or NaN when the entries are NaN |
| Impurity.ClassErrorEntropy | Decision-tree/case1/DecisionTree1.java:380-394 | the max-scan computes the "Class" rule |
| Impurity.CountsFirstMaximum | Decision-tree/case1/DecisionTree1.java:389-394 | the first maximum of the frequency table gives the "Class" value |
| Impurity.Evaluate | Decision-tree/case1/DecisionTree1.java:329-348 | `collect` plus `entropy` compute the split score |
| DecisionTree1.ConditionOf | Decision-tree/case1/DecisionTree1.java:31-33 | a node's `condition` field is -1 on a leaf |
| DecisionTree1.ClassNameOf | Decision-tree/case1/DecisionTree1.java:31-33 | a node's `className` field is -1 on an internal node |
| DecisionTree1.ConfidencesOf | Decision-tree/case1/DecisionTree1.java:36-39 | both confidences are -1 on an internal node |
| DecisionTree1.NewNode | Decision-tree/case1/DecisionTree1.java:43-57 | only type "internal" makes an internal node (class -1); any other type makes a leaf (condition -1); both confidences are -1 |
| DecisionTree1.NewConfidentNode | Decision-tree/case1/DecisionTree1.java:62-83 | as `NewNode`, but a leaf keeps the given confidences while an internal node holds -1 |
| DecisionTree1.RemoveFirst | Decision-tree/case1/DecisionTree1.java:231-232 | `remove(Integer)` drops exactly one occurrence of a present attribute and leaves a list without it unchanged |
| DecisionTree1.MajorityLeaf | Decision-tree/case1/DecisionTree1.java:183-195 | the majority branches make a leaf |
| DecisionTree1.MajorityLeafFacts | Decision-tree/case1/DecisionTree1.java:183-195 | the majority leaf has confidences in (0, 100] and a class some record has |
| DecisionTree1.BestOf | Decision-tree/case1/DecisionTree1.java:308-324 | `bestCondition` under a rule is a chooser that picks the scan's minimum |
| DecisionTree1.Build | Decision-tree/case1/DecisionTree1.java:158-248 | an internal node tests one of the candidate attributes |
| DecisionTree1.BuildLeaf | Decision-tree/case1/DecisionTree1.java:164-224 | which leaf each leaf case of `build` makes: a pure list gives the leaf of its class with `confidenceMaj = 100` and `confidenceRec = 100 * |records| / numberRecords`; no attribute left, or a one-sided split, gives the majority leaf. This unfolds `Build`; what those leaves mean is stated independently by `MajorityLeafReports`, `PureLeafReports` and `BuildLeafReports` |
| DecisionTree1.BuildSplit | Decision-tree/case1/DecisionTree1.java:199-241 | an internal node splits its records into two non-empty sides on a candidate attribute, and both subtrees are grown from those sides without that attribute. This unfolds `Build` for the inductions; where the records end up is stated by `BuildWalkReports` |
| DecisionTree1.BuildHeight | Decision-tree/case1/DecisionTree1.java:225-241 | a grown tree is no deeper than the number of candidate attributes |
| DecisionTree1.BuildConditions | Decision-tree/case1/DecisionTree1.java:197-241 | a grown tree tests only candidate attributes |
| DecisionTree1.BuildDistinctPaths | Decision-tree/case1/DecisionTree1.java:225-241 | with distinct candidates, no root-to-leaf path tests an attribute twice |
| DecisionTree1.RemoveFirstDistinct | Decision-tree/case1/DecisionTree1.java:231-232 | removing an attribute from a repeat-free list leaves neither it nor a repeat |
| DecisionTree1.BuildConfident | Decision-tree/case1/DecisionTree1.java:164-224 | both confidences of every leaf of a grown tree lie in (0, 100] |
| DecisionTree1.BuildLeafClasses | Decision-tree/case1/DecisionTree1.java:164-224 | every leaf of a grown tree names a class that some training record has |
| DecisionTree1.MajorityLeafReports | Decision-tree/case1/DecisionTree1.java:183-195 | the majority leaf reports a most frequent class, `100 * count / |records|` and `100 * |records| / numberRecords` |
| DecisionTree1.PureLeafReports | Decision-tree/case1/DecisionTree1.java:164-176 | the pure leaf reports its class with `confidenceMaj = 100` |
| DecisionTree1.BuildLeafReports | Decision-tree/case1/DecisionTree1.java:164-224 | a leaf at the root of a grown tree reports a majority class and its confidences |
| DecisionTree1.Percentage | Decision-tree/case1/DecisionTree1.java:191-192 | `100 * k / n` lies in (0, 100] for `0 < k <= n`, and is 100 when `k = n` |
| DecisionTree1.OccursInClasses | Decision-tree/case1/DecisionTree1.java:276-277 | a class counted at least once is some record's class |
| DecisionTree1.Leaves | Decision-tree/case1/DecisionTree1.java:29-35 | a tree's leaves are leaves, and a leaf's only leaf is itself |
| DecisionTree1.ConditionsFit | Decision-tree/case1/DecisionTree1.java:427 | a tree whose tests are within 1..w can walk vectors of width w |
| DecisionTree1.BuildFits | Decision-tree/case1/DecisionTree1.java:427 | a tree grown on attributes within 1..w can walk vectors of width w |
| DecisionTree1.Walk | Decision-tree/case1/DecisionTree1.java:439-454 | the walk going left on 0 and right otherwise ends at a leaf of the tree |
| DecisionTree1.BuildFitsRecords | Decision-tree/case1/DecisionTree1.java:419-454 | every record of a list can be walked down the tree grown from it |
| DecisionTree1.BuildWalkReports | Decision-tree/case1/DecisionTree1.java:158-248 | each record walks to the leaf grown from a sub-list of the records that holds it, all of that sub-list walks to the same leaf, and the leaf reports the sub-list's majority class, `confidenceMaj` and `confidenceRec` |
| DecisionTree1.LeafSeq | Decision-tree/case1/DecisionTree1.java:29-35 | the leaves of a tree from left to right, exactly the tree's leaves |
| DecisionTree1.LeafListsPartition | Decision-tree/case1/DecisionTree1.java:158-248 | the record lists the leaves are grown from share out the training list without overlap: together they hold each record as often as it does, and their sizes add up to its size |
| DecisionTree1.BuildLeafLists | Decision-tree/case1/DecisionTree1.java:158-248 | there is one list per leaf, left to right; each list is non-empty, every record in the i-th list walks down to the i-th leaf, and that leaf reports the list's majority class, `confidenceMaj` and `confidenceRec` |
| DecisionTree1.ShareStep | Decision-tree/case1/DecisionTree1.java:439-454 | a leaf's list in the subtree on its records' side of a split is its list in the node, because the walk takes that side |
| DecisionTree1.JoinShares | Decision-tree/case1/DecisionTree1.java:234-241 | the left subtree's lists followed by the right subtree's are the lists of the node's leaves |
| DecisionTree1.PureLeafReached | Decision-tree/case1/DecisionTree1.java:158-248 | a leaf with `confidenceMaj = 100` was grown from records of its class alone, so every training record reaching it has its class |
| DecisionTree1.FullConfidencePure | Decision-tree/case1/DecisionTree1.java:183-195 | a leaf reporting `confidenceMaj = 100` for a list holds the class of every record in it |
| DecisionTree1.ClassifiedLeaf | Decision-tree/case1/DecisionTree1.java:419-434 | a vector classified by a grown tree gets a class in 1..c that some training record has, from a leaf with both confidences in (0, 100] |
| DecisionTree1.Mistakes | Decision-tree/case1/DecisionTree1.java:558-565 | the number of misclassified records is at most the number of records |
| DecisionTree1.MistakesZero | Decision-tree/case1/DecisionTree1.java:558-565 | there is no mistake exactly when every record is classified into its own class |
| DecisionTree1.PureTrainingError | Decision-tree/case1/DecisionTree1.java:547-571 | a pure training list grows a single leaf that makes no mistake |
| DecisionTree1.RemoveAt | Decision-tree/case1/DecisionTree1.java:141 | `remove(index)` shortens the list by one and adds no record |
| DecisionTree1.LeftOutTree | Decision-tree/case1/DecisionTree1.java:590-594 | the held-out record can be walked down the tree grown without it |
| DecisionTree1.LeftOutPredictions | Decision-tree/case1/DecisionTree1.java:586-600 | one prediction per held-out record, each the class the tree grown without that record gives it |
| DecisionTree1.Misclassified | Decision-tree/case1/DecisionTree1.java:586-600 | the misclassified records among the first `k` number at most `k` |
| DecisionTree1.MisclassifiedZero | Decision-tree/case1/DecisionTree1.java:586-600 | no record is counted exactly when every prediction is the record's own class |
| DecisionTree1.AttributeList | Decision-tree/case1/DecisionTree1.java:497-499 | loading makes the candidates exactly 1..n, in order, without repeats |
| DecisionTree1.LoadedAttributes | Decision-tree/case1/DecisionTree1.java:497-499 | every loaded record has every candidate attribute |
| DecisionTree1.DecisionTree1.constructor | Decision-tree/case1/DecisionTree1.java:99-107 | an empty learner with the Gini rule |
| DecisionTree1.DecisionTree1.SetEntropyRule | Decision-tree/case1/DecisionTree1.java:111-114 | only the rule changes |
| DecisionTree1.DecisionTree1.LoadTrainingData | Decision-tree/case1/DecisionTree1.java:461-503 | records and counts are taken over, candidates become 1..numberAttributes, the tree and the rule are kept |
| DecisionTree1.DecisionTree1.CutRecord | Decision-tree/case1/DecisionTree1.java:122-143 | exactly the record at `index` goes, `numberRecords` drops by one, and `numberClasses` never changes |
| DecisionTree1.DecisionTree1.BuildTree | Decision-tree/case1/DecisionTree1.java:148-152 | the root becomes the grown tree; nothing else changes |
| DecisionTree1.DecisionTree1.BuildNode | Decision-tree/case1/DecisionTree1.java:158-248 | the recursive construction returns the grown tree |
| DecisionTree1.DecisionTree1.MajorityNode | Decision-tree/case1/DecisionTree1.java:183-195 | both majority branches build the majority leaf |
| DecisionTree1.DecisionTree1.ChooseCondition | Decision-tree/case1/DecisionTree1.java:199 | the chosen condition is the chooser's |
| DecisionTree1.DecisionTree1.ClassifyGetNode | Decision-tree/case1/DecisionTree1.java:439-454 | the loop returns the leaf the walk reaches |
| DecisionTree1.DecisionTree1.Classify | Decision-tree/case1/DecisionTree1.java:419-434 | the loop returns the class of that leaf |
| DecisionTree1.DecisionTree1.TrainingError | Decision-tree/case1/DecisionTree1.java:547-571 | the returned rate is `Rate` of the number of misclassified training records |
| DecisionTree1.DecisionTree1.LeaveOneOutValidation | Decision-tree/case1/DecisionTree1.java:575-607 | the returned rate is `Rate` of the records whose held-out prediction is not their class; NaN with no record |
| DecisionTree1.DecisionTree1.LeftOutErrors | Decision-tree/case1/DecisionTree1.java:583-600 | the loop counts exactly the records whose held-out prediction is not their class (`Misclassified`) |
| DecisionTree1.DecisionTree1.ClassifyLeftOut | Decision-tree/case1/DecisionTree1.java:588-600 | one round gives record `i` the class of the tree grown without it, its held-out prediction; the records, width and classes it was given allow every such tree to be grown |
| DecisionTree.NewNode | Decision-tree/DecisionTree.java:40-56 | only type "internal" makes an internal node with the given children; any other type makes a leaf of the given class |
| DecisionTree.Build | Decision-tree/DecisionTree.java:93-160 | the root's test is one of the candidate attributes, and every leaf names a class some record has |
| DecisionTree.BuildIsStripped | Decision-tree/DecisionTree.java:93-160 | the older `build` grows `DecisionTree1`'s Gini tree with the confidences dropped: same splits, same leaf classes |
| DecisionTree.ClassOf | Decision-tree/DecisionTree.java:289-304 | `classify` answers the class of one of the tree's leaves |
| DecisionTree.ClassOfStripped | Decision-tree/DecisionTree.java:289-304 | `classify` on the older tree answers the class of the leaf `DecisionTree1`'s walk reaches |
| DecisionTree.DecisionTree.constructor | Decision-tree/DecisionTree.java:71-79 | an empty learner |
| DecisionTree.DecisionTree.LoadTrainingData | Decision-tree/DecisionTree.java:309-355 | records and counts are taken over and the candidates become 1..numberAttributes |
| DecisionTree.DecisionTree.BuildTree | Decision-tree/DecisionTree.java:84-87 | the root becomes the grown tree; nothing else changes |
| DecisionTree.DecisionTree.BuildNode | Decision-tree/DecisionTree.java:93-160 | the recursive construction returns `Build` |
| DecisionTree.DecisionTree.MajorityClass | Decision-tree/DecisionTree.java:178-194 | the answer is the smallest class with the largest frequency |
| DecisionTree.DecisionTree.Classify | Decision-tree/DecisionTree.java:289-304 | the loop returns the class of the leaf reached going left on 0 and right otherwise |
| RiskLabels.AttributeValue | Decision-tree/DecisionTree.java:443-459 | `convert(label, column)` is always 0 or 1, and 0 exactly for the column's own label |
| RiskLabels.ClassValue | Decision-tree/DecisionTree.java:466-481 | every risk label maps to a class in 1..4 |
| RiskLabels.ClassLabel | Decision-tree/DecisionTree.java:487-502 | every class number maps to one of the four labels |
| RiskLabels.ClassRoundTrip | Decision-tree/DecisionTree.java:466-502 | `convert(convert(v)) == v` for v in 1..4 (others come back as 4), and every label the maps produce survives the round trip |
| Knn.Zip | K-neareast-neighbour/NearestNeighbor.java:125-126 | the parallel arrays read as one sequence of (distance, id) entries |
| Knn.Swap | K-neareast-neighbour/NearestNeighbor.java:152-159 | entries `i` and `j` are exchanged in lock-step and nothing else moves |
| Knn.ScanPermutes | K-neareast-neighbour/NearestNeighbor.java:149-159 | an inner pass only moves entries |
| Knn.PassesPermutes | K-neareast-neighbour/NearestNeighbor.java:147-161 | the whole selection is a permutation of the (distance, id) pairs |
| Knn.Step | K-neareast-neighbour/NearestNeighbor.java:151-159 | one compare-and-swap keeps the number of entries and leaves at position `i` the closer of entries `i` and `j` |
| Knn.Scan | K-neareast-neighbour/NearestNeighbor.java:150-159 | the inner loop keeps the number of entries; `ScanFacts` states what it leaves at position `i` |
| Knn.Passes | K-neareast-neighbour/NearestNeighbor.java:149-160 | the outer loop keeps the number of entries; `PassesFacts` states the selection it makes |
| Knn.StepFacts | K-neareast-neighbour/NearestNeighbor.java:151-159 | one compare-and-swap keeps the closest entry seen so far at position `i`, keeps ids distinct, and touches nothing outside `i..n` |
| Knn.ScanFacts | K-neareast-neighbour/NearestNeighbor.java:149-159 | after outer pass `i`, `distance[i] <= distance[j]` for every `j` in `i..n`, and positions before `i` stay no farther |
| Knn.PassesFacts | K-neareast-neighbour/NearestNeighbor.java:147-161 | after the loops the first `k` entries are the `k` smallest of the first `n`, in non-decreasing order; ids stay distinct and later positions are untouched |
| Knn.Select | K-neareast-neighbour/case1/NearestNeighbor1.java:218-232 | the nested in-place swaps over the first `n` entries leave the arrays holding `Passes` of their old contents |
| Knn.ScanRound | K-neareast-neighbour/NearestNeighbor.java:149-159 | one round of the outer loop performs the inner pass |
| Knn.CompareAndSwap | K-neareast-neighbour/NearestNeighbor.java:151-159 | `if (distance[i] > distance[j])` swaps both arrays, one step of the inner pass |
| Knn.Ids | K-neareast-neighbour/NearestNeighbor.java:129-132 | `id[i] = i` for every record |
| Knn.Distances | K-neareast-neighbour/NearestNeighbor.java:129-132 | `distance[i]` is the distance from the query to record `i` |
| Knn.Ranked | K-neareast-neighbour/NearestNeighbor.java:124-135 | the arrays after selection have one entry per record |
| Knn.RankedEntries | K-neareast-neighbour/NearestNeighbor.java:124-135 | every entry is a record with its own distance, each record has exactly one entry, and the first `k` are the closest in non-decreasing order |
| Knn.Neighbours | K-neareast-neighbour/NearestNeighbor.java:135-138 | `id[0..k)` are `k` valid record indices |
| Knn.NeighboursAreNearest | K-neareast-neighbour/NearestNeighbor.java:147-161 | the neighbours are distinct records in non-decreasing order of distance and no record left out is closer |
| Knn.LeftOutNotCloser | K-neareast-neighbour/NearestNeighbor.java:147-161 | no record outside the neighbours is closer than any neighbour |
| Knn.Weight | K-neareast-neighbour/case1/NearestNeighbor1.java:253-259 | every weight is positive |
| Knn.CloserWeighsMore | K-neareast-neighbour/NearestNeighbor.java:184 | of two neighbours the closer one weighs more, except that under `1 / d` distance 0 is set apart |
| Knn.ExactMatchWeighsLess | K-neareast-neighbour/case1/NearestNeighbor1.java:255-258 | under `1 / d` a neighbour at distance 0 weighs 1000, less than one at any distance below 0.001 |
| Knn.NeighbourLabels | K-neareast-neighbour/NearestNeighbor.java:176-177 | the neighbours' classes, in neighbour order |
| Knn.NeighbourWeights | K-neareast-neighbour/NearestNeighbor.java:172-186 | one positive weight per neighbour, all 1 under "unweighted" |
| Knn.Predict | K-neareast-neighbour/NearestNeighbor.java:124-142 | the answer is a class in 1..numberClasses (1 when there is none) |
| Knn.UnweightedPrediction | K-neareast-neighbour/NearestNeighbor.java:166-195 | under "unweighted" the votes add up to `k` and the answer is the smallest class with the most neighbours |
| Knn.Majority | K-neareast-neighbour/NearestNeighbor.java:166-195 | tallying and scanning return the vote of the neighbours `id[0..k)` |
| Knn.Frequencies | K-neareast-neighbour/case1/NearestNeighbor1.java:237-261 | the `frequency` array holds the tally of the neighbours' votes |
| Knn.CountVotes | K-neareast-neighbour/NearestNeighbor.java:174-178 | the unweighted loop adds 1 per neighbour to its class |
| Knn.WeighVotes | K-neareast-neighbour/case1/NearestNeighbor1.java:251-261 | the weighted loop adds each neighbour's weight to its class |
| Knn.FirstMaximum | K-neareast-neighbour/NearestNeighbor.java:189-192 | the scan returns the first maximum |
| Knn.TallyNext | K-neareast-neighbour/NearestNeighbor.java:176-177 | one more neighbour adds its vote to the entry of its class |
| Knn.SameNeighbours | K-neareast-neighbour/NearestNeighbor.java:166-186 | the vote depends only on `id[0..k)` |
| Knn.Classify | K-neareast-neighbour/case1/NearestNeighbor1.java:171-193 | filling the arrays, selecting and voting returns `Predict` |
| Knn.CutOut | K-neareast-neighbour/case1/NearestNeighbor1.java:351-352 | the copy without position `i` keeps the records before `i` and shifts the later ones down by one |
| Knn.CutOutMissesOne | K-neareast-neighbour/case1/NearestNeighbor1.java:351-352 | exactly the record at `i` is missing from the copy |
| Knn.LabelledCutOut | K-neareast-neighbour/case1/NearestNeighbor1.java:351-352 | the remaining records keep their classes in 1..c |
| Knn.Tabulate | K-neareast-neighbour/case1/NearestNeighbor1.java:320-327 | one prediction per record |
| Knn.TabulateAt | K-neareast-neighbour/case1/NearestNeighbor1.java:320-327 | entry `t` is the prediction of record `t` |
| Knn.TrainingPredictions | K-neareast-neighbour/case1/NearestNeighbor1.java:320-327 | one prediction per training record |
| Knn.TrainingPredictionAt | K-neareast-neighbour/case1/NearestNeighbor1.java:322 | record `t` is predicted the vote of its neighbours among all the records, itself included |
| Knn.LeaveOneOutPredictions | K-neareast-neighbour/case1/NearestNeighbor1.java:346-358 | one prediction per held-out record |
| Knn.LeaveOneOutPredictionAt | K-neareast-neighbour/case1/NearestNeighbor1.java:348-354 | record `t` is predicted the vote of its neighbours among the other records |
| Knn.Mistakes | K-neareast-neighbour/case1/NearestNeighbor1.java:320-329 | at most `m` of the first `m` records are errors, so the rate lies in [0, 100] |
| Knn.MistakesZero | K-neareast-neighbour/case1/NearestNeighbor1.java:320-329 | there is no error exactly when every record is predicted its own class |
| NearestNeighbor.NearestNeighbor.constructor | K-neareast-neighbour/NearestNeighbor.java:34-41 | an empty classifier |
| NearestNeighbor.NearestNeighbor.LoadTrainingData | K-neareast-neighbour/NearestNeighbor.java:46-84 | records, counts, `k` and the rule are taken over |
| NearestNeighbor.NearestNeighbor.Classify | K-neareast-neighbour/NearestNeighbor.java:124-142 | the answer is the vote of the `k` nearest records under the `1 / (d + 0.001)` weighting |
| NearestNeighbor.ClassValue | K-neareast-neighbour/NearestNeighbor.java:280-292 | "high" is 1, "medium" 2, everything else 3 |
| NearestNeighbor.ClassLabel | K-neareast-neighbour/NearestNeighbor.java:297-309 | every number maps to "high", "medium" or "low" |
| NearestNeighbor.ClassRoundTrip | K-neareast-neighbour/NearestNeighbor.java:280-309 | `convert(String)` after `convert(int)` is the identity on 1..3 (others come back as 3), and the three labels round-trip |
| NearestNeighbor1.NearestNeighbor1.constructor | K-neareast-neighbour/case1/NearestNeighbor1.java:33-40 | an empty classifier |
| NearestNeighbor1.NearestNeighbor1.SetNumberNeighbors | K-neareast-neighbour/case1/NearestNeighbor1.java:46-48 | only `k` changes |
| NearestNeighbor1.NearestNeighbor1.SetMajorityRule | K-neareast-neighbour/case1/NearestNeighbor1.java:53-60 | "weighted" is kept, any other input becomes "unweighted"; nothing else changes |
| NearestNeighbor1.NearestNeighbor1.LoadTrainingData | K-neareast-neighbour/case1/NearestNeighbor1.java:65-103 | records, counts, `k` and the rule are taken over |
| NearestNeighbor1.NearestNeighbor1.Classify | K-neareast-neighbour/case1/NearestNeighbor1.java:146-165 | the vote of the `k` nearest loaded records under the `1 / d` weighting |
| NearestNeighbor1.NearestNeighbor1.ClassifyAmong | K-neareast-neighbour/case1/NearestNeighbor1.java:171-193 | the vote of the `k` nearest among `cutOutRecords` |
| NearestNeighbor1.NearestNeighbor1.ClassifyRecord | K-neareast-neighbour/case1/NearestNeighbor1.java:320-323 | one round of `trainingError` gives record `i`'s training prediction |
| NearestNeighbor1.NearestNeighbor1.TrainingError | K-neareast-neighbour/case1/NearestNeighbor1.java:312-332 | the rate is `Rate` of the records whose class differs from their prediction, hence NaN or in [0, 100] |
| NearestNeighbor1.NearestNeighbor1.ClassifyLeftOut | K-neareast-neighbour/case1/NearestNeighbor1.java:348-354 | one round of the leave-one-out loop gives record `i`'s held-out prediction, from a copy without it, leaving `records` unchanged |
| NearestNeighbor1.NearestNeighbor1.LeaveOneOutValidate | K-neareast-neighbour/case1/NearestNeighbor1.java:337-366 | the rate is `Rate` of the records misclassified among the others, hence NaN or in [0, 100] |
| NearestNeighbor1.ClassValue | K-neareast-neighbour/case1/NearestNeighbor1.java:449-460 | "good" is 1, "average" 2, everything else 3 |
| NearestNeighbor1.ClassLabel | K-neareast-neighbour/case1/NearestNeighbor1.java:466-477 | every number maps to "good", "average" or "bad" |
| NearestNeighbor1.ClassRoundTrip | K-neareast-neighbour/case1/NearestNeighbor1.java:449-477 | the class maps round-trip on 1..3 (others come back as 3), and the three labels round-trip |
| NearestNeighbor2.NearestNeighbor2.constructor | K-neareast-neighbour/case2/NearestNeighbor2.java:42-49 | an empty classifier |
| NearestNeighbor2.NearestNeighbor2.SetNumberNeighbors | K-neareast-neighbour/case2/NearestNeighbor2.java:54-56 | only `k` changes |
| NearestNeighbor2.NearestNeighbor2.SetMajorityRule | K-neareast-neighbour/case2/NearestNeighbor2.java:61-68 | "weighted" is kept, any other input becomes "unweighted"; nothing else changes |
| NearestNeighbor2.NearestNeighbor2.LoadTrainingData | K-neareast-neighbour/case2/NearestNeighbor2.java:73-111 | records, counts, `k` and the rule are taken over |
| NearestNeighbor2.NearestNeighbor2.Classify | K-neareast-neighbour/case2/NearestNeighbor2.java:154-173 | the vote of the `k` nearest loaded records under the `1 / d` weighting |
| NearestNeighbor2.NearestNeighbor2.ClassifyAmong | K-neareast-neighbour/case2/NearestNeighbor2.java:179-201 | the vote of the `k` nearest among `cutOutRecords` |
| NearestNeighbor2.NearestNeighbor2.ClassifyRecord | K-neareast-neighbour/case2/NearestNeighbor2.java:330 | one round of `trainingError` gives record `i`'s training prediction |
| NearestNeighbor2.NearestNeighbor2.TrainingError | K-neareast-neighbour/case2/NearestNeighbor2.java:320-342 | the returned rate is `Rate` of the records whose class differs from their prediction, hence NaN or in [0, 100] |
| NearestNeighbor2.NearestNeighbor2.ClassifyLeftOut | K-neareast-neighbour/case2/NearestNeighbor2.java:358-364 | one round of the leave-one-out loop gives record `i`'s held-out prediction, from a copy without it, leaving `records` unchanged |
| NearestNeighbor2.NearestNeighbor2.LeaveOneOutValidate | K-neareast-neighbour/case2/NearestNeighbor2.java:347-378 | the returned rate is `Rate` of the records misclassified among the others, hence NaN or in [0, 100] |
| NearestNeighbor2.ClassValue | K-neareast-neighbour/case2/NearestNeighbor2.java:475-488 | "low" is 1, "medium" 2, "high" 3, everything else 4 |
| NearestNeighbor2.ClassLabel | K-neareast-neighbour/case2/NearestNeighbor2.java:494-507 | 1..3 map to "low", "medium", "high", every other number to "undetermined" |
| NearestNeighbor2.ClassRoundTrip | K-neareast-neighbour/case2/NearestNeighbor2.java:475-507 | the class maps round-trip on 1..4 (others come back as 4), and the four labels round-trip |

## Left out

- File and console I/O are not modelled: `loadTrainingData`'s reading, `classifyData`, `validate`, and every printout. Each `LoadTrainingData` takes the parsed records and header values as parameters.
- The `records == null` reloads at the top of the error methods are not modelled. The model starts from loaded records.
- `leaveOneOutValidation` in `DecisionTree1` re-reads the training file for every held-out record. The model loads the fresh learner from the in-memory records instead.
- The attribute converters of the k-NN classes are left out. They rely on `Double.valueOf` and scaled floating point, so records arrive with real attribute values.
- The `distance` functions (`Math.sqrt`, and the mixed metric of `NearestNeighbor2`) are a `Metric` parameter, assumed non-negative.
- Shannon's entropy uses `Math.log`, so the rule takes its value as a caller-supplied function of the class counts.
- Doubles are modelled as exact reals plus NaN. Rounding is not modelled. `0 / 0` yields NaN, and comparisons with NaN are false.
- Null fields after construction are modelled as empty lists and the empty string. A Java `NullPointerException` on a never-loaded classifier is not modelled.
- DecisionTree1.DecisionTree1.BuildNode requires a non-empty record list. `build` on an empty list throws at `records.get(0)`.
- DecisionTree1.DecisionTree1.LeaveOneOutValidation requires other than exactly one record. With one record, the held-out tree would be grown from an empty list and throw.
- DecisionTree1.DecisionTree1.CutRecord requires a valid index. On a bad index, `records.get(index)` throws.
- DecisionTree.DecisionTree.BuildTree and DecisionTree.DecisionTree.BuildNode require a non-empty record list (through `Growable`). `build` on an empty list throws at `records.get(0)`.
- DecisionTree1.DecisionTree1.BuildTree, DecisionTree1.DecisionTree1.BuildNode, DecisionTree.DecisionTree.BuildTree and DecisionTree.DecisionTree.BuildNode, like `TrainingError` and `LeaveOneOutValidation`, require every class in 1..numberClasses (`Labelled`) and every attribute 0 or 1 (`Binary`). `DecisionTree1` reads both with a raw `nextInt()` (Decision-tree/case1/DecisionTree1.java:481-486) and checks neither. A class outside the range throws only when `entropy` or `majorityClass` counts it, and an attribute value other than 0 or 1 drops the record from both sides of `collect`. The older learner's converters only produce values in range, so for it the requirement only excludes a header with fewer classes than the four labels.
- NearestNeighbor.NearestNeighbor.Ready and NearestNeighbor2.NearestNeighbor2.Ready require `k <= numberRecords` and classes in 1..numberClasses, as `NearestNeighbor1` does. Otherwise the source indexes outside its arrays.
- NearestNeighbor1.NearestNeighbor1.Ready requires `k <= numberRecords` and classes in 1..numberClasses. Otherwise `classify` indexes outside its arrays. `TrainingError` and `LeaveOneOutValidate` in both `NearestNeighbor1` and `NearestNeighbor2` require only `Loaded` (the records and classes in range) and the bound on `k` when there are records: on an empty list their loops do not run and the rate is NaN for any `k`.
- NearestNeighbor1.NearestNeighbor1.LeaveOneOutValidate, and the same member of `NearestNeighbor2`, require `k < numberRecords` when there are records, because leaving one record out leaves `numberRecords - 1` candidates for `classify`.
- The `nearestNeighbor`, `majority` and `classify` overloads on `cutOutRecords` are modelled once, in `Knn`, with the record list and its size as parameters.
- NearestNeighbor1.NearestNeighbor1.TrainingError returns its rate, while the source only prints it. The same holds for `LeaveOneOutValidate`.
- `numberRecords` is kept as a field equal to the length of `records`.
- The loop of `leaveOneOutValidation` is the static method `LeftOutErrors`, which takes the learner's records, width, class count and rule as parameters. The model reads those fields once before the loop, and nothing in the loop changes them.
- The choice of split attribute is a chooser parameter. The learner's methods require it to be `bestCondition` under the learner's rule (`IsBestCondition`), and `BestOf` constructs it.
- `DecisionTree2` is not part of this model. The tester mains (`DT_Tester1`, `DT_Tester2`, `KNN_Tester1`, `KNN_Tester2`) are drivers of file-based runs and are left out too.
