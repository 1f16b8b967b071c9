/**
 * The inspection store: the report being built, the saved reports, the
 * capture and analysis status records and the chosen property type, with
 * one method per reducer. Every reducer that changes the current report's
 * problems recomputes its summary.
 */
module InspectionSlice {
  import opened Wrappers
  import opened Types
  import opened Sequences
  import opened ReportGenerator

  // ---------------------------------------------------------------------
  // The list operations the reducers use
  // ---------------------------------------------------------------------

  /** `problems.filter(p => p.id !== id)`. */
  function WithoutProblem(ps: seq<HouseProblem>, id: string): seq<HouseProblem> {
    if ps == [] then []
    else WithoutProblem(ps[..|ps| - 1], id) + (if ps[|ps| - 1].id != id then [ps[|ps| - 1]] else [])
  }

  /** `reports.filter(r => r.id !== id)`. */
  function WithoutReport(rs: seq<InspectionReport>, id: string): seq<InspectionReport> {
    if rs == [] then []
    else WithoutReport(rs[..|rs| - 1], id) + (if rs[|rs| - 1].id != id then [rs[|rs| - 1]] else [])
  }

  /** `reports.findIndex(r => r.id === id)`: the first position with the id, or -1. */
  function IndexOfReport(rs: seq<InspectionReport>, id: string): (k: int)
    ensures -1 <= k < |rs|
    ensures k >= 0 ==> rs[k].id == id && forall j :: 0 <= j < k ==> rs[j].id != id
    ensures k < 0 ==> forall j :: 0 <= j < |rs| ==> rs[j].id != id
  {
    if rs == [] then -1
    else if rs[0].id == id then 0
    else
      var k := IndexOfReport(rs[1..], id);
      if k < 0 then -1 else k + 1
  }

  /** What `saveReport` leaves in the collection: replace the first report with the id, else append. */
  function Upsert(rs: seq<InspectionReport>, r: InspectionReport): seq<InspectionReport> {
    var k := IndexOfReport(rs, r.id);
    if k >= 0 then rs[k := r] else rs + [r]
  }

  predicate UniqueIds(rs: seq<InspectionReport>) {
    forall i, j :: 0 <= i < j < |rs| ==> rs[i].id != rs[j].id
  }

  // ---------------------------------------------------------------------
  // Partial updates of the status records
  // ---------------------------------------------------------------------

  /** A `Partial<VideoCaptureState>`: `None` marks a field left out of the payload. */
  datatype VideoStatePatch = VideoStatePatch(
    isRecording: Option<bool>,
    duration: Option<real>,
    isProcessing: Option<bool>,
    progress: Option<real>)

  /** A `Partial<AIAnalysisState>`. */
  datatype AIStatePatch = AIStatePatch(
    isAnalyzing: Option<bool>,
    currentFrame: Option<int>,
    totalFrames: Option<int>,
    modelLoaded: Option<bool>)

  /** `{ ...s, ...p }`. */
  function ApplyVideoPatch(s: VideoCaptureState, p: VideoStatePatch): VideoCaptureState {
    VideoCaptureState(p.isRecording.GetOr(s.isRecording), p.duration.GetOr(s.duration),
                      p.isProcessing.GetOr(s.isProcessing), p.progress.GetOr(s.progress))
  }

  function ApplyAIPatch(s: AIAnalysisState, p: AIStatePatch): AIAnalysisState {
    AIAnalysisState(p.isAnalyzing.GetOr(s.isAnalyzing), p.currentFrame.GetOr(s.currentFrame),
                    p.totalFrames.GetOr(s.totalFrames), p.modelLoaded.GetOr(s.modelLoaded))
  }

  /** Two patches in a row: the later one's fields win. */
  function Then<T>(first: Option<T>, second: Option<T>): Option<T> {
    if second.Some? then second else first
  }

  function ComposeAIPatches(p: AIStatePatch, q: AIStatePatch): AIStatePatch {
    AIStatePatch(Then(p.isAnalyzing, q.isAnalyzing), Then(p.currentFrame, q.currentFrame),
                 Then(p.totalFrames, q.totalFrames), Then(p.modelLoaded, q.modelLoaded))
  }

  function ComposeVideoPatches(p: VideoStatePatch, q: VideoStatePatch): VideoStatePatch {
    VideoStatePatch(Then(p.isRecording, q.isRecording), Then(p.duration, q.duration),
                    Then(p.isProcessing, q.isProcessing), Then(p.progress, q.progress))
  }

  const InitialVideoState: VideoCaptureState := VideoCaptureState(false, 0.0, false, 0.0)
  const InitialAIState: AIAnalysisState := AIAnalysisState(false, 0, 0, false)

  /** The summary `createNewReport` writes out literally. */
  const EmptyReportSummary: ReportSummary := ReportSummary(0, 0, 0, 0, 0, 0, 100)

  // ---------------------------------------------------------------------
  // The store
  // ---------------------------------------------------------------------

  class InspectionState {
    var currentReport: Option<InspectionReport>
    var reports: seq<InspectionReport>
    var videoState: VideoCaptureState
    var aiState: AIAnalysisState
    var selectedPropertyType: PropertyType
    var isOfflineMode: bool

    /** The initial state. */
    constructor ()
      ensures currentReport == None && reports == []
      ensures videoState == InitialVideoState && aiState == InitialAIState
      ensures selectedPropertyType == Apartment && !isOfflineMode
    {
      currentReport := None;
      reports := [];
      videoState := InitialVideoState;
      aiState := InitialAIState;
      selectedPropertyType := Apartment;
      isOfflineMode := false;
    }

    method SetCurrentReport(report: Option<InspectionReport>)
      modifies this`currentReport
      ensures currentReport == report
    {
      currentReport := report;
    }

    /** Recomputes the current report's summary from its problems, with its own counting loop. */
    method UpdateReportSummary()
      requires currentReport.Some?
      modifies this`currentReport
      ensures currentReport == Some(old(currentReport.value).(summary := SummaryOf(old(currentReport.value.problems))))
    {
      var report := currentReport.value;
      var problems := report.problems;
      var criticalCount, highCount, moderateCount, lowCount := 0, 0, 0, 0;
      var totalEstimatedCost := 0;
      for i := 0 to |problems|
        invariant criticalCount == Total(problems[..i], CriticalBucket)
        invariant highCount == Total(problems[..i], HighBucket)
        invariant moderateCount == Total(problems[..i], ModerateBucket)
        invariant lowCount == Total(problems[..i], LowBucket)
        invariant totalEstimatedCost == Total(problems[..i], Cost)
      {
        assert problems[..i + 1][..i] == problems[..i];
        var problem := problems[i];
        totalEstimatedCost := totalEstimatedCost + problem.estimatedCost;
        if problem.severity == 5 {
          criticalCount := criticalCount + 1;
        } else if problem.severity == 4 {
          highCount := highCount + 1;
        } else if problem.severity == 3 {
          moderateCount := moderateCount + 1;
        } else if problem.severity == 1 || problem.severity == 2 {
          lowCount := lowCount + 1;
        }
      }
      assert problems[..|problems|] == problems;
      var totalProblems := |problems|;
      var severityPoints := criticalCount * 20 + highCount * 10 + moderateCount * 5 + lowCount * 2;
      var overallScore := Clamp(100 - severityPoints);
      currentReport := Some(report.(summary := ReportSummary(totalProblems, criticalCount, highCount,
                                                             moderateCount, lowCount, totalEstimatedCost,
                                                             overallScore)));
    }

    /** Appends one problem to the current report, if there is one. */
    method AddProblem(problem: HouseProblem)
      modifies this`currentReport
      ensures old(currentReport).None? ==> currentReport == None
      ensures old(currentReport).Some? ==>
        && currentReport.Some?
        && currentReport.value.problems == old(currentReport.value.problems) + [problem]
        && currentReport.value == old(currentReport.value).(problems := currentReport.value.problems,
                                                           summary := currentReport.value.summary)
        && SummaryConsistent(currentReport.value)
    {
      if currentReport.Some? {
        var report := currentReport.value;
        currentReport := Some(report.(problems := report.problems + [problem]));
        UpdateReportSummary();
      }
    }

    /** Appends a batch of problems, in order and without deduplication. */
    method AddProblems(problems: seq<HouseProblem>)
      modifies this`currentReport
      ensures old(currentReport).None? ==> currentReport == None
      ensures old(currentReport).Some? ==>
        && currentReport.Some?
        && currentReport.value.problems == old(currentReport.value.problems) + problems
        && currentReport.value == old(currentReport.value).(problems := currentReport.value.problems,
                                                           summary := currentReport.value.summary)
        && SummaryConsistent(currentReport.value)
    {
      if currentReport.Some? {
        var report := currentReport.value;
        currentReport := Some(report.(problems := report.problems + problems));
        UpdateReportSummary();
      }
    }

    /** Drops every problem with the id from the current report. */
    method RemoveProblem(id: string)
      modifies this`currentReport
      ensures old(currentReport).None? ==> currentReport == None
      ensures old(currentReport).Some? ==>
        && currentReport.Some?
        && currentReport.value.problems == WithoutProblem(old(currentReport.value.problems), id)
        && currentReport.value == old(currentReport.value).(problems := currentReport.value.problems,
                                                           summary := currentReport.value.summary)
        && SummaryConsistent(currentReport.value)
    {
      if currentReport.Some? {
        var report := currentReport.value;
        currentReport := Some(report.(problems := WithoutProblem(report.problems, id)));
        UpdateReportSummary();
      }
    }

    /** Stores a report, replacing the first saved one with the same id. */
    method SaveReport(report: InspectionReport)
      modifies this`reports
      ensures reports == Upsert(old(reports), report)
    {
      var existingIndex := IndexOfReport(reports, report.id);
      if existingIndex >= 0 {
        reports := reports[existingIndex := report];
      } else {
        reports := reports + [report];
      }
    }

    method DeleteReport(id: string)
      modifies this`reports
      ensures reports == WithoutReport(old(reports), id)
    {
      reports := WithoutReport(reports, id);
    }

    method SetVideoState(patch: VideoStatePatch)
      modifies this`videoState
      ensures videoState == ApplyVideoPatch(old(videoState), patch)
    {
      videoState := ApplyVideoPatch(videoState, patch);
    }

    method SetAIState(patch: AIStatePatch)
      modifies this`aiState
      ensures aiState == ApplyAIPatch(old(aiState), patch)
    {
      aiState := ApplyAIPatch(aiState, patch);
    }

    method SetPropertyType(propertyType: PropertyType)
      modifies this`selectedPropertyType
      ensures selectedPropertyType == propertyType
    {
      selectedPropertyType := propertyType;
    }

    method SetOfflineMode(offline: bool)
      modifies this`isOfflineMode
      ensures isOfflineMode == offline
    {
      isOfflineMode := offline;
    }

    /**
     * Starts an empty report for the selected property type; `id` and
     * `createdAt` are the clock readings the reducer takes.
     */
    method CreateNewReport(id: string, createdAt: int)
      modifies this`currentReport
      ensures currentReport == Some(NewReport(id, createdAt, selectedPropertyType))
    {
      currentReport := Some(NewReport(id, createdAt, selectedPropertyType));
    }

    method ResetInspection()
      modifies this
      ensures currentReport == None && reports == []
      ensures videoState == InitialVideoState && aiState == InitialAIState
      ensures selectedPropertyType == Apartment && !isOfflineMode
    {
      currentReport := None;
      reports := [];
      videoState := InitialVideoState;
      aiState := InitialAIState;
      selectedPropertyType := Apartment;
      isOfflineMode := false;
    }
  }

  // ---------------------------------------------------------------------
  // Properties of the list operations
  // ---------------------------------------------------------------------

  /**
   * `removeProblem` drops exactly the problems with the id: none is left,
   * every other one keeps its multiplicity, and their order is kept.
   */
  lemma {:induction false} WithoutProblemCount(ps: seq<HouseProblem>, id: string, q: HouseProblem)
    ensures multiset(WithoutProblem(ps, id))[q] == if q.id == id then 0 else multiset(ps)[q]
  {
    if ps != [] {
      var ps', x := ps[..|ps| - 1], ps[|ps| - 1];
      assert ps == ps' + [x];
      WithoutProblemCount(ps', id, q);
    }
  }

  lemma {:induction false} WithoutProblemKeepsOrder(ps: seq<HouseProblem>, id: string)
    ensures IsSubsequence(WithoutProblem(ps, id), ps)
  {
    if ps != [] {
      var ps', x := ps[..|ps| - 1], ps[|ps| - 1];
      WithoutProblemKeepsOrder(ps', id);
      var r, r' := WithoutProblem(ps, id), WithoutProblem(ps', id);
      if x.id != id {
        assert r[..|r| - 1] == r';
      } else if r != [] {
        WithoutProblemMembers(ps', id);
        assert r == r';
        assert r[|r| - 1] in r';
        assert r[|r| - 1] != x;
      }
    }
  }

  lemma {:induction false} WithoutProblemMembers(ps: seq<HouseProblem>, id: string)
    ensures forall q :: q in WithoutProblem(ps, id) ==> q.id != id && q in ps
  {
    if ps != [] {
      WithoutProblemMembers(ps[..|ps| - 1], id);
    }
  }

  /** `deleteReport` drops exactly the reports with the id and keeps the rest in order. */
  lemma {:induction false} WithoutReportCount(rs: seq<InspectionReport>, id: string, q: InspectionReport)
    ensures multiset(WithoutReport(rs, id))[q] == if q.id == id then 0 else multiset(rs)[q]
  {
    if rs != [] {
      var rs', x := rs[..|rs| - 1], rs[|rs| - 1];
      assert rs == rs' + [x];
      WithoutReportCount(rs', id, q);
    }
  }

  lemma {:induction false} WithoutReportKeepsOrder(rs: seq<InspectionReport>, id: string)
    ensures IsSubsequence(WithoutReport(rs, id), rs)
  {
    if rs != [] {
      var rs', x := rs[..|rs| - 1], rs[|rs| - 1];
      WithoutReportKeepsOrder(rs', id);
      var r, r' := WithoutReport(rs, id), WithoutReport(rs', id);
      if x.id != id {
        assert r[..|r| - 1] == r';
      } else if r != [] {
        WithoutReportMembers(rs', id);
        assert r == r';
        assert r[|r| - 1] in r';
        assert r[|r| - 1] != x;
      }
    }
  }

  lemma {:induction false} WithoutReportMembers(rs: seq<InspectionReport>, id: string)
    ensures forall q :: q in WithoutReport(rs, id) ==> q.id != id && q in rs
  {
    if rs != [] {
      WithoutReportMembers(rs[..|rs| - 1], id);
    }
  }

  /** Deleting keeps the saved ids unique. */
  lemma {:induction false} WithoutReportKeepsUnique(rs: seq<InspectionReport>, id: string)
    requires UniqueIds(rs)
    ensures UniqueIds(WithoutReport(rs, id))
  {
    if rs != [] {
      var rs' := rs[..|rs| - 1];
      WithoutReportKeepsUnique(rs', id);
      WithoutReportMembers(rs', id);
      var r, r' := WithoutReport(rs, id), WithoutReport(rs', id);
      if rs[|rs| - 1].id != id {
        forall i | 0 <= i < |r'| ensures r'[i].id != rs[|rs| - 1].id {
          assert r'[i] in rs';
        }
      }
    }
  }

  /**
   * `saveReport` replaces the first report with the id in place when there
   * is one and appends otherwise: the length grows by at most one, the
   * saved report is present, and every other entry stays where it was.
   */
  lemma UpsertSpec(rs: seq<InspectionReport>, r: InspectionReport)
    ensures var u := Upsert(rs, r);
      && (exists j :: 0 <= j < |rs| && rs[j].id == r.id) ==> |u| == |rs|
    ensures (forall j :: 0 <= j < |rs| ==> rs[j].id != r.id) ==> Upsert(rs, r) == rs + [r]
    ensures r in Upsert(rs, r)
    ensures forall j :: 0 <= j < |rs| && rs[j].id != r.id ==> Upsert(rs, r)[j] == rs[j]
    ensures forall j :: 0 <= j < |rs| && rs[j].id == r.id ==>
      Upsert(rs, r)[j] == (if j == IndexOfReport(rs, r.id) then r else rs[j])
  {
    var u := Upsert(rs, r);
    var k := IndexOfReport(rs, r.id);
    if k >= 0 {
      assert u[k] == r;
    } else {
      assert u[|rs|] == r;
    }
  }

  /** Saving keeps the ids of the collection unique. */
  lemma UpsertKeepsUnique(rs: seq<InspectionReport>, r: InspectionReport)
    requires UniqueIds(rs)
    ensures UniqueIds(Upsert(rs, r))
    ensures (set q | q in Upsert(rs, r) :: q.id) == (set q | q in rs :: q.id) + {r.id}
  {
    var u := Upsert(rs, r);
    var k := IndexOfReport(rs, r.id);
    forall q | q in rs ensures q.id in (set q | q in u :: q.id) {
      var j :| 0 <= j < |rs| && rs[j] == q;
      if j == k { assert u[j] == r; } else { assert u[j] == q; }
    }
    forall q | q in u ensures q.id in (set q | q in rs :: q.id) + {r.id} {
      var j :| 0 <= j < |u| && u[j] == q;
      if j < |rs| && j != k { assert rs[j] == q; }
    }
    assert r in u by { UpsertSpec(rs, r); }
  }

  /** The report `createNewReport` starts: no problems, no address or media, the literal empty summary. */
  function NewReport(id: string, createdAt: int, propertyType: PropertyType): InspectionReport {
    InspectionReport(id, createdAt, propertyType, None, [], EmptyReportSummary, None, None)
  }

  /** The literal summary a new report starts with is the one its empty problem list determines. */
  lemma NewReportConsistent(id: string, createdAt: int, propertyType: PropertyType)
    ensures SummaryConsistent(NewReport(id, createdAt, propertyType))
  {
    EmptySummary();
  }

  // ---------------------------------------------------------------------
  // Properties of the partial updates and the empty report
  // ---------------------------------------------------------------------

  /** Applying two partial updates in a row is applying their combination, later fields winning. */
  lemma ApplyAIPatchCompose(s: AIAnalysisState, p: AIStatePatch, q: AIStatePatch)
    ensures ApplyAIPatch(ApplyAIPatch(s, p), q) == ApplyAIPatch(s, ComposeAIPatches(p, q))
    ensures ApplyAIPatch(ApplyAIPatch(s, p), p) == ApplyAIPatch(s, p)
  {
  }

  lemma ApplyVideoPatchCompose(s: VideoCaptureState, p: VideoStatePatch, q: VideoStatePatch)
    ensures ApplyVideoPatch(ApplyVideoPatch(s, p), q) == ApplyVideoPatch(s, ComposeVideoPatches(p, q))
    ensures ApplyVideoPatch(ApplyVideoPatch(s, p), p) == ApplyVideoPatch(s, p)
  {
  }

  /** Only the supplied fields change; an empty payload changes nothing. */
  lemma ApplyAIPatchFrame(s: AIAnalysisState, p: AIStatePatch)
    ensures p.isAnalyzing.None? ==> ApplyAIPatch(s, p).isAnalyzing == s.isAnalyzing
    ensures p.currentFrame.None? ==> ApplyAIPatch(s, p).currentFrame == s.currentFrame
    ensures p.totalFrames.None? ==> ApplyAIPatch(s, p).totalFrames == s.totalFrames
    ensures p.modelLoaded.None? ==> ApplyAIPatch(s, p).modelLoaded == s.modelLoaded
    ensures p.isAnalyzing.Some? ==> ApplyAIPatch(s, p).isAnalyzing == p.isAnalyzing.value
    ensures p.currentFrame.Some? ==> ApplyAIPatch(s, p).currentFrame == p.currentFrame.value
    ensures p.totalFrames.Some? ==> ApplyAIPatch(s, p).totalFrames == p.totalFrames.value
    ensures p.modelLoaded.Some? ==> ApplyAIPatch(s, p).modelLoaded == p.modelLoaded.value
    ensures ApplyAIPatch(s, AIStatePatch(None, None, None, None)) == s
  {
  }

  lemma ApplyVideoPatchFrame(s: VideoCaptureState, p: VideoStatePatch)
    ensures p.isRecording.None? ==> ApplyVideoPatch(s, p).isRecording == s.isRecording
    ensures p.duration.None? ==> ApplyVideoPatch(s, p).duration == s.duration
    ensures p.isProcessing.None? ==> ApplyVideoPatch(s, p).isProcessing == s.isProcessing
    ensures p.progress.None? ==> ApplyVideoPatch(s, p).progress == s.progress
    ensures p.isRecording.Some? ==> ApplyVideoPatch(s, p).isRecording == p.isRecording.value
    ensures p.duration.Some? ==> ApplyVideoPatch(s, p).duration == p.duration.value
    ensures p.isProcessing.Some? ==> ApplyVideoPatch(s, p).isProcessing == p.isProcessing.value
    ensures p.progress.Some? ==> ApplyVideoPatch(s, p).progress == p.progress.value
    ensures ApplyVideoPatch(s, VideoStatePatch(None, None, None, None)) == s
  {
  }
}
