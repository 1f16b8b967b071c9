/**
 * The analyser's deterministic part: turning one frame's detections into
 * tagged problems, merging the problems of a whole video by their
 * category-and-description key, and the coarse location label of a
 * bounding box. The detector itself is not modelled: its output for each
 * frame is an input here.
 */
module AIAnalyzer {
  import opened Wrappers
  import opened Types

  /** What the detector reports for one finding in one frame. */
  datatype DetectionResult = DetectionResult(
    category: ProblemCategory,
    confidence: real,
    boundingBox: BoundingBox,
    description: string,
    severity: int,
    repairSuggestion: string,
    estimatedCost: int)

  // ---------------------------------------------------------------------
  // Location labels
  // ---------------------------------------------------------------------

  /** Left up to a third of the width, right from two thirds on, middle in between. */
  function HorizontalLabel(xPercent: real): (r: string)
    ensures r == "左侧" <==> xPercent <= 33.0
    ensures r == "中间" <==> 33.0 < xPercent < 66.0
    ensures r == "右侧" <==> xPercent >= 66.0
    ensures |r| == 2
  {
    if xPercent > 33.0 && xPercent < 66.0 then "中间"
    else if xPercent >= 66.0 then "右侧"
    else "左侧"
  }

  /** Top up to a third of the height, bottom from two thirds on, centre in between. */
  function VerticalLabel(yPercent: real): (r: string)
    ensures r == "上方" <==> yPercent <= 33.0
    ensures r == "中部" <==> 33.0 < yPercent < 66.0
    ensures r == "下方" <==> yPercent >= 66.0
    ensures |r| == 2
  {
    if yPercent > 33.0 && yPercent < 66.0 then "中部"
    else if yPercent >= 66.0 then "下方"
    else "上方"
  }

  /**
   * The location text: the vertical label followed by the horizontal one,
   * from the box corner as a percentage of the image size (an image is
   * never zero pixels wide or high).
   */
  function LocationDescription(box: BoundingBox, imageWidth: real, imageHeight: real): (r: string)
    requires imageWidth > 0.0 && imageHeight > 0.0
    ensures |r| == 4
    ensures r[..2] == VerticalLabel(box.y / imageHeight * 100.0)
    ensures r[2..] == HorizontalLabel(box.x / imageWidth * 100.0)
  {
    var xPercent := box.x / imageWidth * 100.0;
    var yPercent := box.y / imageHeight * 100.0;
    VerticalLabel(yPercent) + HorizontalLabel(xPercent)
  }

  // ---------------------------------------------------------------------
  // analyzeFrame
  // ---------------------------------------------------------------------

  function DigitChar(d: nat): char
    requires d < 10
  {
    ('0' as int + d) as char
  }

  /** The decimal rendering of a natural number, as a template literal prints it. */
  function NatToString(n: nat): (s: string)
    ensures |s| > 0
    ensures |s| == 1 <==> n < 10
    ensures forall i :: 0 <= i < |s| ==> '0' <= s[i] <= '9'
    ensures s[0] == '0' ==> n == 0
    decreases n
  {
    if n < 10 then [DigitChar(n)] else NatToString(n / 10) + [DigitChar(n % 10)]
  }

  /** Reads a string of decimal digits, most significant first. */
  function ParseNat(s: string): int {
    if s == [] then 0 else ParseNat(s[..|s| - 1]) * 10 + (s[|s| - 1] as int - '0' as int)
  }

  /** Reading the rendering back gives the number: the digits are decimal, most significant first. */
  lemma {:induction false} NatToStringRoundTrip(n: nat)
    ensures ParseNat(NatToString(n)) == n
    decreases n
  {
    var s := NatToString(n);
    if n < 10 {
      assert s[..0] == [];
    } else {
      assert s[..|s| - 1] == NatToString(n / 10);
      NatToStringRoundTrip(n / 10);
    }
  }

  lemma {:induction false} NatToStringInjective(a: nat, b: nat)
    requires NatToString(a) == NatToString(b)
    ensures a == b
    decreases a
  {
    if a >= 10 && b >= 10 {
      var sa, sb := NatToString(a), NatToString(b);
      assert sa[|sa| - 1] == DigitChar(a % 10) && sb[|sb| - 1] == DigitChar(b % 10);
      assert sa[..|sa| - 1] == NatToString(a / 10);
      assert sb[..|sb| - 1] == NatToString(b / 10);
      NatToStringInjective(a / 10, b / 10);
    } else {
      assert NatToString(a)[0] == NatToString(b)[0];
    }
  }

  /** `${timestamp}-${index}`; the rendering of the timestamp is supplied by the caller. */
  function ProblemId(timestampText: string, index: nat): string {
    timestampText + "-" + NatToString(index)
  }

  /** Within one frame (one timestamp) different detections get different ids. */
  lemma ProblemIdInjective(timestampText: string, i: nat, j: nat)
    requires ProblemId(timestampText, i) == ProblemId(timestampText, j)
    ensures i == j
  {
    var k := |timestampText| + 1;
    assert ProblemId(timestampText, i)[k..] == NatToString(i);
    assert ProblemId(timestampText, j)[k..] == NatToString(j);
    NatToStringInjective(i, j);
  }

  /** The problem built from the detection at position `index` of a frame. */
  function ProblemFromDetection(d: DetectionResult, index: nat, timestamp: real, timestampText: string,
                                imageWidth: real, imageHeight: real): HouseProblem
    requires imageWidth > 0.0 && imageHeight > 0.0
  {
    HouseProblem(
      ProblemId(timestampText, index), d.category, d.description, d.severity, d.confidence,
      LocationDescription(d.boundingBox, imageWidth, imageHeight), Some(timestamp), None,
      Some(d.boundingBox), d.repairSuggestion, d.estimatedCost)
  }

  /**
   * One problem per detection, in order, each carrying its detection's
   * findings, the frame's timestamp, and an id unique within the frame.
   */
  method AnalyzeFrame(detections: seq<DetectionResult>, timestamp: real, timestampText: string,
                      imageWidth: real, imageHeight: real) returns (problems: seq<HouseProblem>)
    requires imageWidth > 0.0 && imageHeight > 0.0
    ensures |problems| == |detections|
    ensures forall i :: 0 <= i < |detections| ==>
      problems[i] == ProblemFromDetection(detections[i], i, timestamp, timestampText, imageWidth, imageHeight)
    ensures forall i :: 0 <= i < |problems| ==>
      && problems[i].id == ProblemId(timestampText, i)
      && problems[i].frameTimestamp == Some(timestamp)
      && problems[i].category == detections[i].category
      && problems[i].description == detections[i].description
      && problems[i].confidence == detections[i].confidence
    ensures forall i, j :: 0 <= i < j < |problems| ==> problems[i].id != problems[j].id
  {
    problems := [];
    for index := 0 to |detections|
      invariant |problems| == index
      invariant forall i :: 0 <= i < index ==>
        problems[i] == ProblemFromDetection(detections[i], i, timestamp, timestampText, imageWidth, imageHeight)
    {
      var detection := detections[index];
      var problem := HouseProblem(
        ProblemId(timestampText, index), detection.category, detection.description,
        detection.severity, detection.confidence,
        LocationDescription(detection.boundingBox, imageWidth, imageHeight), Some(timestamp), None,
        Some(detection.boundingBox), detection.repairSuggestion, detection.estimatedCost);
      problems := problems + [problem];
    }
    forall i, j | 0 <= i < j < |problems| ensures problems[i].id != problems[j].id {
      if problems[i].id == problems[j].id {
        ProblemIdInjective(timestampText, i, j);
      }
    }
  }

  // ---------------------------------------------------------------------
  // The dedup key
  // ---------------------------------------------------------------------

  /** `${category}-${description}`. */
  function ProblemKey(p: HouseProblem): string {
    CategoryTag(p.category) + "-" + p.description
  }

  /** The position of the first hyphen in `s`, or `|s|` when there is none. */
  function FirstHyphen(s: string): (k: nat)
    ensures k <= |s|
  {
    if s == [] then 0 else if s[0] == '-' then 0 else 1 + FirstHyphen(s[1..])
  }

  lemma {:induction false} FirstHyphenAfterTag(t: string, d: string)
    requires '-' !in t
    ensures FirstHyphen(t + "-" + d) == |t|
  {
    if t == [] {
      assert (t + "-" + d)[0] == '-';
    } else {
      assert (t + "-" + d)[1..] == t[1..] + "-" + d;
      FirstHyphenAfterTag(t[1..], d);
    }
  }

  /** Splitting `t + "-" + d` at its first hyphen gives back `t` and `d` when `t` has no hyphen. */
  lemma SplitAtFirstHyphen(t1: string, d1: string, t2: string, d2: string)
    requires '-' !in t1 && '-' !in t2
    requires t1 + "-" + d1 == t2 + "-" + d2
    ensures t1 == t2 && d1 == d2
  {
    var key := t1 + "-" + d1;
    FirstHyphenAfterTag(t1, d1);
    FirstHyphenAfterTag(t2, d2);
    assert t1 == key[..|t1|] == t2;
    assert d1 == key[|t1| + 1..] == d2;
  }

  /** Category tags have no hyphen, so the key determines both the category and the description. */
  lemma ProblemKeyInjective(p: HouseProblem, q: HouseProblem)
    requires ProblemKey(p) == ProblemKey(q)
    ensures p.category == q.category && p.description == q.description
  {
    CategoryTagHasNoHyphen(p.category);
    CategoryTagHasNoHyphen(q.category);
    SplitAtFirstHyphen(CategoryTag(p.category), p.description, CategoryTag(q.category), q.description);
    CategoryTagInjective(p.category, q.category);
  }

  // ---------------------------------------------------------------------
  // analyzeVideoFrames, as a specification
  // ---------------------------------------------------------------------

  /** The keys of a problem list, in list order. */
  function Keys(ps: seq<HouseProblem>): (ks: seq<string>)
    ensures |ks| == |ps|
    ensures forall i :: 0 <= i < |ps| ==> ks[i] == ProblemKey(ps[i])
  {
    if ps == [] then [] else Keys(ps[..|ps| - 1]) + [ProblemKey(ps[|ps| - 1])]
  }

  predicate DistinctKeys(ps: seq<HouseProblem>) {
    forall i, j :: 0 <= i < j < |ps| ==> ProblemKey(ps[i]) != ProblemKey(ps[j])
  }

  /** `findIndex` by key: the first position holding the key, or -1. */
  function FindByKey(ps: seq<HouseProblem>, key: string): (k: int)
    ensures -1 <= k < |ps|
    ensures k >= 0 ==> ProblemKey(ps[k]) == key && forall j :: 0 <= j < k ==> ProblemKey(ps[j]) != key
    ensures k < 0 ==> key !in Keys(ps)
  {
    if ps == [] then -1
    else if ProblemKey(ps[0]) == key then 0
    else
      var k := FindByKey(ps[1..], key);
      if k < 0 then -1 else k + 1
  }

  /** The threshold above which a repeated finding may replace the stored one. */
  const ReplaceThreshold: real := 0.8

  /**
   * One detection merged into the list so far: a new key is appended; a
   * repeated key replaces the stored entry only when the new confidence
   * exceeds the threshold and the stored one; otherwise it is dropped.
   */
  function Merge(acc: seq<HouseProblem>, p: HouseProblem): seq<HouseProblem> {
    var k := FindByKey(acc, ProblemKey(p));
    if k < 0 then acc + [p]
    else if p.confidence > ReplaceThreshold && acc[k].confidence < p.confidence then acc[k := p]
    else acc
  }

  /** All detections merged in order. */
  function Aggregate(ps: seq<HouseProblem>): seq<HouseProblem> {
    if ps == [] then [] else Merge(Aggregate(ps[..|ps| - 1]), ps[|ps| - 1])
  }

  lemma AggregateSnoc(ps: seq<HouseProblem>, p: HouseProblem)
    ensures Aggregate(ps + [p]) == Merge(Aggregate(ps), p)
  {
    assert (ps + [p])[..|ps|] == ps;
  }

  /** The detections of all frames, frame by frame. */
  function Flatten(frames: seq<seq<HouseProblem>>): seq<HouseProblem> {
    if frames == [] then [] else Flatten(frames[..|frames| - 1]) + frames[|frames| - 1]
  }

  /** The keys of a list in first-seen order, each once. */
  function FirstSeen(ks: seq<string>): seq<string> {
    if ks == [] then []
    else
      var r := FirstSeen(ks[..|ks| - 1]);
      if ks[|ks| - 1] in r then r else r + [ks[|ks| - 1]]
  }

  /** One `onProgress(current, total)` call. */
  datatype ProgressCall = ProgressCall(current: nat, total: nat)

  // ---------------------------------------------------------------------
  // analyzeVideoFrames: the loop
  // ---------------------------------------------------------------------

  /** The body of the per-detection callback: merge one problem, keeping `seen` equal to the stored keys. */
  method MergeDetection(ghost done: seq<HouseProblem>, allProblems: seq<HouseProblem>, seenProblems: set<string>,
                        problem: HouseProblem)
    returns (allProblems': seq<HouseProblem>, seenProblems': set<string>)
    requires allProblems == Aggregate(done)
    requires forall key :: key in seenProblems <==> key in Keys(allProblems)
    ensures allProblems' == Merge(allProblems, problem) == Aggregate(done + [problem])
    ensures forall key :: key in seenProblems' <==> key in Keys(allProblems')
  {
    allProblems', seenProblems' := allProblems, seenProblems;
    var problemKey := ProblemKey(problem);
    if problemKey !in seenProblems || problem.confidence > ReplaceThreshold {
      if problemKey in seenProblems {
        var existingIndex := FindByKey(allProblems, problemKey);
        if existingIndex >= 0 && allProblems[existingIndex].confidence < problem.confidence {
          allProblems' := allProblems[existingIndex := problem];
        }
      } else {
        allProblems' := allProblems + [problem];
        seenProblems' := seenProblems + {problemKey};
      }
    }
    KeysMerge(allProblems, problem);
    AggregateSnoc(done, problem);
  }

  lemma PrefixSnoc(s: seq<HouseProblem>, j: nat)
    requires j < |s|
    ensures s[..j + 1] == s[..j] + [s[j]]
  {
  }

  /** The inner loop over one frame's problems; `done` stands for the detections merged before. */
  method MergeFrame(ghost done: seq<HouseProblem>, allProblems: seq<HouseProblem>, seenProblems: set<string>,
                    problems: seq<HouseProblem>)
    returns (allProblems': seq<HouseProblem>, seenProblems': set<string>)
    requires allProblems == Aggregate(done)
    requires forall key :: key in seenProblems <==> key in Keys(allProblems)
    ensures allProblems' == Aggregate(done + problems)
    ensures forall key :: key in seenProblems' <==> key in Keys(allProblems')
  {
    allProblems', seenProblems' := allProblems, seenProblems;
    ghost var merged := done;
    for j := 0 to |problems|
      invariant merged == done + problems[..j]
      invariant allProblems' == Aggregate(merged)
      invariant forall key :: key in seenProblems' <==> key in Keys(allProblems')
    {
      allProblems', seenProblems' := MergeDetection(merged, allProblems', seenProblems', problems[j]);
      PrefixSnoc(problems, j);
      merged := merged + [problems[j]];
    }
    assert problems[..|problems|] == problems;
  }

  /**
   * `frames[i]` is what `analyzeFrame` returned for frame i. Returns the
   * merged problems and the progress calls made (none when no callback is
   * given).
   */
  method AnalyzeVideoFrames(frames: seq<seq<HouseProblem>>, hasOnProgress: bool)
    returns (allProblems: seq<HouseProblem>, progress: seq<ProgressCall>)
    ensures allProblems == Aggregate(Flatten(frames))
    ensures hasOnProgress ==> (|progress| == |frames| &&
      forall k :: 0 <= k < |progress| ==> progress[k] == ProgressCall(k + 1, |frames|))
    ensures !hasOnProgress ==> progress == []
  {
    allProblems := [];
    var seenProblems: set<string> := {};
    progress := [];
    for i := 0 to |frames|
      invariant allProblems == Aggregate(Flatten(frames[..i]))
      invariant forall key :: key in seenProblems <==> key in Keys(allProblems)
      invariant hasOnProgress ==> (|progress| == i &&
        forall k :: 0 <= k < i ==> progress[k] == ProgressCall(k + 1, |frames|))
      invariant !hasOnProgress ==> progress == []
    {
      assert frames[..i + 1][..i] == frames[..i];
      allProblems, seenProblems := MergeFrame(Flatten(frames[..i]), allProblems, seenProblems, frames[i]);
      if hasOnProgress {
        progress := progress + [ProgressCall(i + 1, |frames|)];
      }
    }
    assert frames[..|frames|] == frames;
  }

  // ---------------------------------------------------------------------
  // Properties of the merge
  // ---------------------------------------------------------------------

  /** Merging a detection adds its key at the end when new, and otherwise keeps the key list. */
  lemma KeysMerge(acc: seq<HouseProblem>, p: HouseProblem)
    ensures Keys(Merge(acc, p)) == if ProblemKey(p) in Keys(acc) then Keys(acc) else Keys(acc) + [ProblemKey(p)]
  {
    var k := FindByKey(acc, ProblemKey(p));
    if k < 0 {
      assert (acc + [p])[..|acc|] == acc;
    } else {
      assert Keys(acc)[k] == ProblemKey(p);
      var r := Merge(acc, p);
      assert Keys(r) == Keys(acc);
    }
  }

  /**
   * Against a list with distinct keys: a new key is appended at the end;
   * a repeated key leaves the length unchanged and replaces the one entry
   * holding it exactly when the new confidence is above the threshold and
   * above the stored one.
   */
  lemma MergeShape(acc: seq<HouseProblem>, p: HouseProblem)
    requires DistinctKeys(acc)
    ensures ProblemKey(p) !in Keys(acc) ==> Merge(acc, p) == acc + [p]
    ensures forall k :: 0 <= k < |acc| && ProblemKey(acc[k]) == ProblemKey(p) ==>
      Merge(acc, p) == if p.confidence > ReplaceThreshold && acc[k].confidence < p.confidence
                       then acc[k := p] else acc
  {
    var f := FindByKey(acc, ProblemKey(p));
    forall k | 0 <= k < |acc| && ProblemKey(acc[k]) == ProblemKey(p)
      ensures f == k
    {
      assert Keys(acc)[k] == ProblemKey(p);
    }
  }

  lemma MergeKeepsDistinct(acc: seq<HouseProblem>, p: HouseProblem)
    requires DistinctKeys(acc)
    ensures DistinctKeys(Merge(acc, p))
  {
    KeysMerge(acc, p);
    var r := Merge(acc, p);
    forall i, j | 0 <= i < j < |r| ensures ProblemKey(r[i]) != ProblemKey(r[j]) {
      assert Keys(r)[i] == ProblemKey(r[i]) && Keys(r)[j] == ProblemKey(r[j]);
      if j == |acc| {
        assert Keys(acc)[i] == ProblemKey(acc[i]);
      } else {
        assert Keys(acc)[i] == ProblemKey(acc[i]) && Keys(acc)[j] == ProblemKey(acc[j]);
      }
    }
  }

  /** The merged result never holds two entries with the same key. */
  lemma {:induction false} AggregateDistinct(ps: seq<HouseProblem>)
    ensures DistinctKeys(Aggregate(ps))
  {
    if ps != [] {
      AggregateDistinct(ps[..|ps| - 1]);
      MergeKeepsDistinct(Aggregate(ps[..|ps| - 1]), ps[|ps| - 1]);
    }
  }

  lemma {:induction false} FirstSeenElements(ks: seq<string>)
    ensures forall k :: k in FirstSeen(ks) <==> k in ks
  {
    if ks != [] {
      FirstSeenElements(ks[..|ks| - 1]);
      assert ks == ks[..|ks| - 1] + [ks[|ks| - 1]];
    }
  }

  /**
   * The keys of the result are exactly the keys of all detections, each
   * once, in the order in which they were first seen.
   */
  lemma {:induction false} AggregateKeys(ps: seq<HouseProblem>)
    ensures Keys(Aggregate(ps)) == FirstSeen(Keys(ps))
    ensures forall key :: key in Keys(Aggregate(ps)) <==> key in Keys(ps)
  {
    if ps != [] {
      AggregateKeys(ps[..|ps| - 1]);
      KeysMerge(Aggregate(ps[..|ps| - 1]), ps[|ps| - 1]);
    }
    FirstSeenElements(Keys(ps));
  }

  /**
   * A merge only appends or replaces: no entry moves or changes key, no
   * stored confidence goes down, the list grows by at most one.
   */
  lemma MergeMonotone(acc: seq<HouseProblem>, p: HouseProblem)
    ensures |acc| <= |Merge(acc, p)| <= |acc| + 1
    ensures forall i :: 0 <= i < |acc| ==>
      ProblemKey(Merge(acc, p)[i]) == ProblemKey(acc[i]) && Merge(acc, p)[i].confidence >= acc[i].confidence
  {
  }

  /** Over any number of further detections, stored confidences never decrease. */
  lemma {:induction false} AggregateMonotone(ps: seq<HouseProblem>, more: seq<HouseProblem>)
    ensures |Aggregate(ps)| <= |Aggregate(ps + more)| <= |Aggregate(ps)| + |more|
    ensures forall i :: 0 <= i < |Aggregate(ps)| ==>
      && ProblemKey(Aggregate(ps + more)[i]) == ProblemKey(Aggregate(ps)[i])
      && Aggregate(ps + more)[i].confidence >= Aggregate(ps)[i].confidence
  {
    if more == [] {
      assert ps + more == ps;
    } else {
      var more' := more[..|more| - 1];
      assert (ps + more)[..|ps + more| - 1] == ps + more';
      AggregateMonotone(ps, more');
      MergeMonotone(Aggregate(ps + more'), more[|more| - 1]);
    }
  }

  /** Every stored entry is one of the detections. */
  lemma {:induction false} AggregateFromInput(ps: seq<HouseProblem>)
    ensures forall x :: x in Aggregate(ps) ==> x in ps
  {
    if ps != [] {
      AggregateFromInput(ps[..|ps| - 1]);
      var acc := Aggregate(ps[..|ps| - 1]);
      forall x | x in Merge(acc, ps[|ps| - 1]) ensures x in ps {
        if x != ps[|ps| - 1] {
          assert x in acc;
          assert x in ps[..|ps| - 1];
        }
      }
    }
  }

  /** `r` stores the key of `p`, with a confidence at least `p`'s when `p` is above the threshold. */
  predicate Covers(r: seq<HouseProblem>, p: HouseProblem) {
    exists i :: 0 <= i < |r| && ProblemKey(r[i]) == ProblemKey(p) &&
      (p.confidence > ReplaceThreshold ==> r[i].confidence >= p.confidence)
  }

  lemma MergeCovers(acc: seq<HouseProblem>, p: HouseProblem, q: HouseProblem)
    ensures Covers(Merge(acc, p), p)
    ensures Covers(acc, q) ==> Covers(Merge(acc, p), q)
  {
    var r := Merge(acc, p);
    MergeMonotone(acc, p);
    var k := FindByKey(acc, ProblemKey(p));
    if k < 0 {
      assert r[|acc|] == p;
    } else {
      assert ProblemKey(r[k]) == ProblemKey(p);
    }
    if Covers(acc, q) {
      var i :| 0 <= i < |acc| && ProblemKey(acc[i]) == ProblemKey(q) &&
        (q.confidence > ReplaceThreshold ==> acc[i].confidence >= q.confidence);
      assert ProblemKey(r[i]) == ProblemKey(q);
    }
  }

  /**
   * Every detection's key is stored, and a detection above the threshold
   * is matched or beaten by the stored confidence for its key.
   */
  lemma {:induction false} AggregateDominates(ps: seq<HouseProblem>)
    ensures forall j :: 0 <= j < |ps| ==> Covers(Aggregate(ps), ps[j])
  {
    if ps != [] {
      var ps', p := ps[..|ps| - 1], ps[|ps| - 1];
      var acc := Aggregate(ps');
      AggregateDominates(ps');
      assert Aggregate(ps) == Merge(acc, p);
      forall j | 0 <= j < |ps| ensures Covers(Aggregate(ps), ps[j]) {
        if j < |ps'| {
          assert ps[j] == ps'[j];
          MergeCovers(acc, p, ps'[j]);
        } else {
          assert ps[j] == p;
          MergeCovers(acc, p, p);
        }
      }
    }
  }

  /** Flattening distributes over appending one frame. */
  lemma FlattenAppend(frames: seq<seq<HouseProblem>>, frame: seq<HouseProblem>)
    ensures Flatten(frames + [frame]) == Flatten(frames) + frame
  {
    assert (frames + [frame])[..|frames|] == frames;
  }
}
