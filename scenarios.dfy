/**
 * The documented aggregation scenarios, stated for any detections with the
 * given confidences and a shared deduplication key.
 */
module Scenarios {
  import opened Types
  import opened AIAnalyzer
  import opened ReportGenerator

  /** Two detections of the same issue: the second wins only under the replace rule. */
  lemma {:induction false} SameKeyPair(a: HouseProblem, b: HouseProblem)
    requires ProblemKey(a) == ProblemKey(b)
    ensures Aggregate([a, b]) ==
      if b.confidence > ReplaceThreshold && a.confidence < b.confidence then [b] else [a]
  {
    assert Aggregate([a]) == [a] by {
      AggregateSnoc([], a);
      assert [] + [a] == [a];
    }
    AggregateSnoc([a], b);
    assert [a] + [b] == [a, b];
    assert FindByKey([a], ProblemKey(b)) == 0;
  }

  /** Confidence 0.6 then 0.9: one entry, the 0.9 one. */
  lemma RisingConfidenceReplaces(a: HouseProblem, b: HouseProblem)
    requires ProblemKey(a) == ProblemKey(b) && a.confidence == 0.6 && b.confidence == 0.9
    ensures Aggregate([a, b]) == [b]
  {
    SameKeyPair(a, b);
  }

  /** Confidence 0.9 then 0.6: the first entry stays. */
  lemma FallingConfidenceKeeps(a: HouseProblem, b: HouseProblem)
    requires ProblemKey(a) == ProblemKey(b) && a.confidence == 0.9 && b.confidence == 0.6
    ensures Aggregate([a, b]) == [a]
  {
    SameKeyPair(a, b);
  }

  /** Confidence 0.5 then 0.7: higher, but not above the threshold, so the first entry stays. */
  lemma HigherBelowThresholdKeeps(a: HouseProblem, b: HouseProblem)
    requires ProblemKey(a) == ProblemKey(b) && a.confidence == 0.5 && b.confidence == 0.7
    ensures Aggregate([a, b]) == [a]
  {
    SameKeyPair(a, b);
  }

  /**
   * Three frames: a 0.7 detection, nothing, then a 0.95 detection of the same
   * issue costing 500. The result is the single 0.95 entry and the summary
   * counts one problem costing 500.
   */
  lemma {:induction false} ThreeFrameScenario(a: HouseProblem, b: HouseProblem)
    requires ProblemKey(a) == ProblemKey(b) && a.confidence == 0.7 && b.confidence == 0.95
    requires b.estimatedCost == 500
    ensures Aggregate(Flatten([[a], [], [b]])) == [b]
    ensures SummaryOf([b]).totalProblems == 1 && SummaryOf([b]).totalEstimatedCost == 500
  {
    FlattenAppend([], [a]);
    FlattenAppend([[a]], []);
    FlattenAppend([[a], []], [b]);
    assert [] + [[a]] == [[a]];
    assert [[a]] + [[]] == [[a], []];
    assert [[a], []] + [[b]] == [[a], [], [b]];
    assert Flatten([[a], [], [b]]) == [a, b];
    SameKeyPair(a, b);
    TotalSingleton(b, Cost);
  }
}
