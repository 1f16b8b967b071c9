/**
 * The report generator's bookkeeping: the summary of a problem list
 * (severity buckets, total cost, clamped score), report creation, the
 * grouping of problems by category used by the HTML export, and the
 * export file name.
 */
module ReportGenerator {
  import opened Wrappers
  import opened Types
  import opened Sequences

  // ---------------------------------------------------------------------
  // The summary, as a specification
  // ---------------------------------------------------------------------

  /** A per-problem quantity that the summary adds up. */
  datatype Measure = Cost | SeverityBetween(lo: int, hi: int)

  /** Severity 5 is critical, 4 high, 3 moderate, and both 2 and 1 are low. */
  const CriticalBucket: Measure := SeverityBetween(5, 5)
  const HighBucket: Measure := SeverityBetween(4, 4)
  const ModerateBucket: Measure := SeverityBetween(3, 3)
  const LowBucket: Measure := SeverityBetween(1, 2)

  function MeasureOf(p: HouseProblem, m: Measure): int {
    match m
    case Cost => p.estimatedCost
    case SeverityBetween(lo, hi) => if lo <= p.severity <= hi then 1 else 0
  }

  /** The sum of a measure over a problem list, taken front to back. */
  function Total(ps: seq<HouseProblem>, m: Measure): int {
    if ps == [] then 0 else Total(ps[..|ps| - 1], m) + MeasureOf(ps[|ps| - 1], m)
  }

  /** `Math.max(0, Math.min(100, x))`. */
  function Clamp(x: int): (r: int)
    ensures 0 <= r <= 100
    ensures 0 <= x <= 100 ==> r == x
    ensures x < 0 ==> r == 0
    ensures x > 100 ==> r == 100
  {
    if x > 100 then 100 else if x < 0 then 0 else x
  }

  function SeverityPoints(critical: int, high: int, moderate: int, low: int): int {
    critical * 20 + high * 10 + moderate * 5 + low * 2
  }

  /** The summary a report's figures must agree with. */
  function SummaryOf(ps: seq<HouseProblem>): ReportSummary {
    var critical := Total(ps, CriticalBucket);
    var high := Total(ps, HighBucket);
    var moderate := Total(ps, ModerateBucket);
    var low := Total(ps, LowBucket);
    ReportSummary(|ps|, critical, high, moderate, low, Total(ps, Cost),
                  Clamp(100 - SeverityPoints(critical, high, moderate, low)))
  }

  /** A report whose stored summary is the one its problem list determines. */
  predicate SummaryConsistent(r: InspectionReport) {
    r.summary == SummaryOf(r.problems)
  }

  // ---------------------------------------------------------------------
  // calculateSummary: one pass with five running counters
  // ---------------------------------------------------------------------

  method CalculateSummary(problems: seq<HouseProblem>) returns (s: ReportSummary)
    ensures s == SummaryOf(problems)
    ensures s.totalProblems == |problems| && 0 <= s.overallScore <= 100
  {
    var criticalCount, highCount, moderateCount, lowCount := 0, 0, 0, 0;
    var totalEstimatedCost := 0;
    for i := 0 to |problems|
      invariant criticalCount == Total(problems[..i], CriticalBucket)
      invariant highCount == Total(problems[..i], HighBucket)
      invariant moderateCount == Total(problems[..i], ModerateBucket)
      invariant lowCount == Total(problems[..i], LowBucket)
      invariant totalEstimatedCost == Total(problems[..i], Cost)
    {
      assert problems[..i + 1][..i] == problems[..i];
      var problem := problems[i];
      totalEstimatedCost := totalEstimatedCost + problem.estimatedCost;
      if problem.severity == 5 {
        criticalCount := criticalCount + 1;
      } else if problem.severity == 4 {
        highCount := highCount + 1;
      } else if problem.severity == 3 {
        moderateCount := moderateCount + 1;
      } else if problem.severity == 2 || problem.severity == 1 {
        lowCount := lowCount + 1;
      }
    }
    assert problems[..|problems|] == problems;
    var totalProblems := |problems|;
    var severityPoints := criticalCount * 20 + highCount * 10 + moderateCount * 5 + lowCount * 2;
    var overallScore := Clamp(100 - severityPoints);
    s := ReportSummary(totalProblems, criticalCount, highCount, moderateCount, lowCount,
                       totalEstimatedCost, overallScore);
  }

  // ---------------------------------------------------------------------
  // Properties of the summary
  // ---------------------------------------------------------------------

  lemma {:induction false} TotalAppend(a: seq<HouseProblem>, b: seq<HouseProblem>, m: Measure)
    ensures Total(a + b, m) == Total(a, m) + Total(b, m)
  {
    if b == [] {
      assert a + b == a;
    } else {
      assert (a + b)[..|a + b| - 1] == a + b[..|b| - 1];
      TotalAppend(a, b[..|b| - 1], m);
    }
  }

  lemma TotalSingleton(p: HouseProblem, m: Measure)
    ensures Total([p], m) == MeasureOf(p, m)
  {
    assert [p][..0] == [];
  }

  /** A bucket count is never negative and never exceeds the list length. */
  lemma {:induction false} BucketBounds(ps: seq<HouseProblem>, lo: int, hi: int)
    ensures 0 <= Total(ps, SeverityBetween(lo, hi)) <= |ps|
  {
    if ps != [] {
      BucketBounds(ps[..|ps| - 1], lo, hi);
    }
  }

  /** Each summary figure is a sum over the list, so reordering the list changes nothing. */
  lemma {:induction false} TotalPermutation(a: seq<HouseProblem>, b: seq<HouseProblem>, m: Measure)
    requires multiset(a) == multiset(b)
    ensures Total(a, m) == Total(b, m)
  {
    if a == [] {
      assert |b| == |multiset(b)| == 0;
    } else {
      var x := a[|a| - 1];
      var a' := a[..|a| - 1];
      assert a == a' + [x];
      assert x in multiset(b);
      var j :| 0 <= j < |b| && b[j] == x;
      var b' := b[..j] + b[j + 1..];
      assert b == b[..j] + [x] + b[j + 1..];
      assert multiset(a) == multiset(a') + multiset{x};
      assert multiset(b) == multiset(b[..j]) + multiset{x} + multiset(b[j + 1..]);
      assert multiset(b') == multiset(b[..j]) + multiset(b[j + 1..]);
      assert multiset(a') == multiset(a) - multiset{x};
      assert multiset(b') == multiset(b) - multiset{x};
      TotalPermutation(a', b', m);
      TotalAppend(a', [x], m);
      TotalAppend(b[..j], b[j + 1..], m);
      TotalAppend(b[..j] + [x], b[j + 1..], m);
      TotalAppend(b[..j], [x], m);
    }
  }

  lemma SummaryPermutation(a: seq<HouseProblem>, b: seq<HouseProblem>)
    requires multiset(a) == multiset(b)
    ensures SummaryOf(a) == SummaryOf(b)
  {
    assert |a| == |multiset(a)| == |multiset(b)| == |b|;
    TotalPermutation(a, b, CriticalBucket);
    TotalPermutation(a, b, HighBucket);
    TotalPermutation(a, b, ModerateBucket);
    TotalPermutation(a, b, LowBucket);
    TotalPermutation(a, b, Cost);
  }

  /**
   * The score lies in [0, 100], the counts are bounded by the list length,
   * and when every severity is one of the five levels the four buckets
   * together count every problem exactly once.
   */
  lemma SummaryBounds(ps: seq<HouseProblem>)
    ensures var s := SummaryOf(ps);
      && s.totalProblems == |ps|
      && 0 <= s.overallScore <= 100
      && 0 <= s.criticalCount <= |ps| && 0 <= s.highCount <= |ps|
      && 0 <= s.moderateCount <= |ps| && 0 <= s.lowCount <= |ps|
    ensures (forall i :: 0 <= i < |ps| ==> 1 <= ps[i].severity <= 5) ==>
      var s := SummaryOf(ps);
      s.criticalCount + s.highCount + s.moderateCount + s.lowCount == s.totalProblems
  {
    BucketBounds(ps, 5, 5);
    BucketBounds(ps, 4, 4);
    BucketBounds(ps, 3, 3);
    BucketBounds(ps, 1, 2);
    if forall i :: 0 <= i < |ps| ==> 1 <= ps[i].severity <= 5 {
      BucketsPartition(ps);
    }
  }

  lemma {:induction false} BucketsPartition(ps: seq<HouseProblem>)
    requires forall i :: 0 <= i < |ps| ==> 1 <= ps[i].severity <= 5
    ensures Total(ps, CriticalBucket) + Total(ps, HighBucket) + Total(ps, ModerateBucket)
            + Total(ps, LowBucket) == |ps|
  {
    if ps != [] {
      var ps' := ps[..|ps| - 1];
      assert forall i :: 0 <= i < |ps'| ==> ps'[i] == ps[i];
      BucketsPartition(ps');
    }
  }

  /** The empty list: all counts and the cost are 0 and the score is 100. */
  lemma EmptySummary()
    ensures SummaryOf([]) == ReportSummary(0, 0, 0, 0, 0, 0, 100)
  {
  }

  /** Adding problems never raises the score; the cost and count grow additively. */
  lemma AppendNeverRaisesScore(ps: seq<HouseProblem>, more: seq<HouseProblem>)
    ensures SummaryOf(ps + more).overallScore <= SummaryOf(ps).overallScore
    ensures SummaryOf(ps + more).totalEstimatedCost == SummaryOf(ps).totalEstimatedCost + Total(more, Cost)
    ensures SummaryOf(ps + more).totalProblems == SummaryOf(ps).totalProblems + |more|
  {
    TotalAppend(ps, more, CriticalBucket);
    TotalAppend(ps, more, HighBucket);
    TotalAppend(ps, more, ModerateBucket);
    TotalAppend(ps, more, LowBucket);
    TotalAppend(ps, more, Cost);
    BucketBounds(more, 5, 5);
    BucketBounds(more, 4, 4);
    BucketBounds(more, 3, 3);
    BucketBounds(more, 1, 2);
  }

  /** How one more problem moves each bucket: by its own severity, 2 and 1 alike into low. */
  lemma SummaryOfAppendOne(ps: seq<HouseProblem>, p: HouseProblem)
    ensures var s, t := SummaryOf(ps), SummaryOf(ps + [p]);
      && t.totalProblems == s.totalProblems + 1
      && t.totalEstimatedCost == s.totalEstimatedCost + p.estimatedCost
      && t.criticalCount == s.criticalCount + (if p.severity == 5 then 1 else 0)
      && t.highCount == s.highCount + (if p.severity == 4 then 1 else 0)
      && t.moderateCount == s.moderateCount + (if p.severity == 3 then 1 else 0)
      && t.lowCount == s.lowCount + (if p.severity == 1 || p.severity == 2 then 1 else 0)
  {
    assert (ps + [p])[..|ps|] == ps;
  }

  // ---------------------------------------------------------------------
  // createReport
  // ---------------------------------------------------------------------

  /** A new report holding the given problems; the id and clock reading are supplied by the caller. */
  function CreateReport(id: string, createdAt: int, propertyType: PropertyType,
                        address: Option<string>, problems: seq<HouseProblem>): (r: InspectionReport)
    ensures SummaryConsistent(r)
    ensures r.problems == problems && r.propertyType == propertyType && r.address == address
    ensures r.id == id && r.createdAt == createdAt && r.videoUrl == None && r.thumbnailUrl == None
  {
    InspectionReport(id, createdAt, propertyType, address, problems, SummaryOf(problems), None, None)
  }

  // ---------------------------------------------------------------------
  // groupProblemsByCategory
  // ---------------------------------------------------------------------

  /** The problems of one category, in list order. */
  function OfCategory(ps: seq<HouseProblem>, c: ProblemCategory): seq<HouseProblem> {
    if ps == [] then []
    else OfCategory(ps[..|ps| - 1], c) + (if ps[|ps| - 1].category == c then [ps[|ps| - 1]] else [])
  }

  predicate HasCategory(ps: seq<HouseProblem>, c: ProblemCategory) {
    exists k :: 0 <= k < |ps| && ps[k].category == c
  }

  /**
   * The categories in the order their first problem appears: the order in
   * which the keys of the grouping record are created, and so the order in
   * which `Object.entries` lists them.
   */
  function CategoryOrder(ps: seq<HouseProblem>): seq<ProblemCategory> {
    if ps == [] then []
    else
      var r := CategoryOrder(ps[..|ps| - 1]);
      if ps[|ps| - 1].category in r then r else r + [ps[|ps| - 1].category]
  }

  /**
   * The grouping record: `grouped` maps each present category to its
   * problems, and `order` lists its keys in insertion order.
   */
  method GroupProblemsByCategory(problems: seq<HouseProblem>)
    returns (grouped: map<ProblemCategory, seq<HouseProblem>>, order: seq<ProblemCategory>)
    ensures forall c :: c in grouped <==> HasCategory(problems, c)
    ensures forall c :: c in grouped ==> grouped[c] == OfCategory(problems, c) && grouped[c] != []
    ensures order == CategoryOrder(problems)
    ensures forall c :: c in order <==> c in grouped
  {
    grouped := map[];
    order := [];
    for i := 0 to |problems|
      invariant forall c :: c in grouped <==> HasCategory(problems[..i], c)
      invariant forall c :: c in grouped ==> grouped[c] == OfCategory(problems[..i], c) && grouped[c] != []
      invariant forall c :: c !in grouped ==> OfCategory(problems[..i], c) == []
      invariant order == CategoryOrder(problems[..i])
    {
      assert problems[..i + 1][..i] == problems[..i];
      var problem := problems[i];
      CategoryOrderElements(problems[..i]);
      if problem.category !in grouped {
        grouped := grouped[problem.category := []];
        order := order + [problem.category];
      }
      grouped := grouped[problem.category := grouped[problem.category] + [problem]];
      forall c ensures HasCategory(problems[..i + 1], c) <==> HasCategory(problems[..i], c) || c == problem.category {
        if HasCategory(problems[..i + 1], c) {
          var k :| 0 <= k < i + 1 && problems[..i + 1][k].category == c;
          if k < i { assert problems[..i][k].category == c; }
        }
        if HasCategory(problems[..i], c) {
          var k :| 0 <= k < i && problems[..i][k].category == c;
          assert problems[..i + 1][k].category == c;
        }
        if c == problem.category { assert problems[..i + 1][i].category == c; }
      }
    }
    assert problems[..|problems|] == problems;
    CategoryOrderElements(problems);
  }

  /** The order lists exactly the categories present. */
  lemma {:induction false} CategoryOrderElements(ps: seq<HouseProblem>)
    ensures forall c :: c in CategoryOrder(ps) <==> HasCategory(ps, c)
  {
    if ps != [] {
      var ps' := ps[..|ps| - 1];
      CategoryOrderElements(ps');
      forall c ensures c in CategoryOrder(ps) <==> HasCategory(ps, c) {
        if HasCategory(ps', c) {
          var k :| 0 <= k < |ps'| && ps'[k].category == c;
          assert ps[k].category == c;
        }
        if HasCategory(ps, c) && c != ps[|ps| - 1].category {
          var k :| 0 <= k < |ps| && ps[k].category == c;
          assert ps'[k].category == c;
        }
      }
    }
  }

  /** No category is listed twice. */
  lemma {:induction false} CategoryOrderDistinct(ps: seq<HouseProblem>)
    ensures forall i, j :: 0 <= i < j < |CategoryOrder(ps)| ==> CategoryOrder(ps)[i] != CategoryOrder(ps)[j]
  {
    if ps != [] {
      CategoryOrderDistinct(ps[..|ps| - 1]);
    }
  }

  /** Later problems only add categories at the end: a key created earlier is listed earlier. */
  lemma {:induction false} CategoryOrderExtends(ps: seq<HouseProblem>, more: seq<HouseProblem>)
    ensures |CategoryOrder(ps)| <= |CategoryOrder(ps + more)|
    ensures CategoryOrder(ps + more)[..|CategoryOrder(ps)|] == CategoryOrder(ps)
  {
    if more == [] {
      assert ps + more == ps;
    } else {
      var more' := more[..|more| - 1];
      assert (ps + more)[..|ps + more| - 1] == ps + more';
      CategoryOrderExtends(ps, more');
    }
  }

  /** Every problem in a group belongs to that group's category. */
  lemma {:induction false} OfCategoryMembers(ps: seq<HouseProblem>, c: ProblemCategory)
    ensures forall q :: q in OfCategory(ps, c) ==> q.category == c
  {
    if ps != [] {
      OfCategoryMembers(ps[..|ps| - 1], c);
    }
  }

  /** Each problem occurs under its own category exactly as often as in the list, and nowhere else. */
  lemma {:induction false} OfCategoryMultiplicity(ps: seq<HouseProblem>, c: ProblemCategory, p: HouseProblem)
    ensures multiset(OfCategory(ps, c))[p] == if p.category == c then multiset(ps)[p] else 0
  {
    if ps != [] {
      var ps' := ps[..|ps| - 1];
      assert ps == ps' + [ps[|ps| - 1]];
      OfCategoryMultiplicity(ps', c, p);
    }
  }

  /** Grouping keeps the relative order of the problems within each group. */
  lemma {:induction false} OfCategoryKeepsOrder(ps: seq<HouseProblem>, c: ProblemCategory)
    ensures IsSubsequence(OfCategory(ps, c), ps)
  {
    if ps != [] {
      var ps' := ps[..|ps| - 1];
      var x := ps[|ps| - 1];
      OfCategoryKeepsOrder(ps', c);
      if x.category == c {
        assert OfCategory(ps, c)[..|OfCategory(ps, c)| - 1] == OfCategory(ps', c);
      } else {
        var g := OfCategory(ps, c);
        if g != [] {
          OfCategoryMembers(ps', c);
          assert g == OfCategory(ps', c);
          assert g[|g| - 1] in g;
          assert g[|g| - 1] != x;
        }
      }
    }
  }

  // ---------------------------------------------------------------------
  // The export file name
  // ---------------------------------------------------------------------

  datatype ReportFormat = Html | Json

  function Extension(f: ReportFormat): string {
    match f
    case Html => "html"
    case Json => "json"
  }

  function ReportFilename(id: string, format: ReportFormat): (name: string)
    ensures |name| == |"inspection-report-"| + |id| + 5
  {
    "inspection-report-" + id + "." + Extension(format)
  }

  /** Different reports or formats never share a file name. */
  lemma ReportFilenameInjective(id1: string, f1: ReportFormat, id2: string, f2: ReportFormat)
    requires ReportFilename(id1, f1) == ReportFilename(id2, f2)
    ensures id1 == id2 && f1 == f2
  {
    var n1, n2 := ReportFilename(id1, f1), ReportFilename(id2, f2);
    var k := |"inspection-report-"|;
    assert |id1| == |id2|;
    assert n1[k..k + |id1|] == id1;
    assert n2[k..k + |id2|] == id2;
    assert n1[k + |id1| + 1..] == Extension(f1);
    assert n2[k + |id2| + 1..] == Extension(f2);
  }
}
