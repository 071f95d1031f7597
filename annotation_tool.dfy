/**
  The annotation session: three append-only logs (annotations, quality
  results, pairwise comparisons) and the operations that append to them or
  summarise them. Timestamps and the comparison's random winner come in as
  parameters; printing and file output are not modelled.
 */
module AnnotationTool {
  import opened Wrappers
  import opened PyValues
  import opened QualityRules
  import opened Statistics

  /** The Python exceptions an operation can raise. */
  datatype PyError = ZeroDivisionError | TypeError

  datatype Annotation = Annotation(
    imageId: Value,
    category: string,
    confidence: Value,
    timestamp: string,
    notes: Value)

  datatype QualityResult = QualityResult(
    dataEntry: Entry,
    score: nat,
    maxScore: nat,
    percentage: real,
    feedback: seq<string>,
    timestamp: string)

  /** The three outcomes `random.choice` picks from. */
  datatype Winner = A | B | Tie

  datatype ComparisonResult = ComparisonResult(
    itemA: Value,
    itemB: Value,
    criterion: string,
    winner: string,
    timestamp: string)

  datatype ConsistencyReport = ConsistencyReport(
    totalAnnotations: nat,
    uniqueCategories: nat,
    avgConfidence: real,
    categoryDistribution: map<string, nat>,
    consistencyScore: real)

  datatype Summary = Summary(
    totalAnnotations: nat,
    totalQualityChecks: nat,
    totalComparisons: nat,
    generatedAt: string,
    averageQualityScore: Option<real>)

  datatype Report = Report(
    summary: Summary,
    annotations: seq<Annotation>,
    qualityScores: seq<QualityResult>,
    comparisons: seq<ComparisonResult>)

  /** What the CSV export writes: a header row and one row per annotation. */
  datatype CsvTable = CsvTable(header: seq<string>, rows: seq<seq<Value>>)

  /** The keys of an annotation record, in insertion order. */
  const AnnotationKeys: seq<string> := ["image_id", "category", "confidence", "timestamp", "notes"]

  /** The annotation record as the dict the tool stores. */
  function AnnotationEntry(a: Annotation): (e: Entry)
    ensures e.Keys == set k | k in AnnotationKeys
  {
    map["image_id" := a.imageId, "category" := PyStr(a.category), "confidence" := a.confidence,
        "timestamp" := PyStr(a.timestamp), "notes" := a.notes]
  }

  /** Reads a stored dict back as an annotation. The tool itself never does
      this; it serves only to show that the stored record loses nothing. */
  function AnnotationOfEntry(e: Entry): Option<Annotation>
  {
    if "image_id" in e && "category" in e && "confidence" in e && "timestamp" in e && "notes" in e
       && e["category"].PyStr? && e["timestamp"].PyStr?
    then Some(Annotation(e["image_id"], e["category"].s, e["confidence"], e["timestamp"].s, e["notes"]))
    else None
  }

  lemma AnnotationEntryRoundTrip(a: Annotation)
    ensures AnnotationOfEntry(AnnotationEntry(a)) == Some(a)
  {
  }

  /** How the three rules judge a stored annotation. */
  lemma AnnotationRules(a: Annotation)
    ensures Complete(AnnotationEntry(a)) <==>
      Truthy(a.imageId) && a.category != "" && Truthy(a.confidence) && a.timestamp != "" && Truthy(a.notes)
    ensures WellFormatted(AnnotationEntry(a)) <==> a.imageId.PyStr?
    ensures ConsistentConfidence(AnnotationEntry(a)) <==> InRange(a.confidence, 1, 6)
  {
    var e := AnnotationEntry(a);
    if Complete(e) {
      assert Truthy(e["image_id"]) && Truthy(e["category"]) && Truthy(e["confidence"]);
      assert Truthy(e["timestamp"]) && Truthy(e["notes"]);
    }
    if Truthy(a.imageId) && a.category != "" && Truthy(a.confidence) && a.timestamp != "" && Truthy(a.notes) {
      forall k | k in e
        ensures Truthy(e[k])
      {
        assert k in AnnotationKeys;
        assert k == "image_id" || k == "category" || k == "confidence" || k == "timestamp" || k == "notes";
      }
    }
  }

  /** An annotation made with the default empty notes fails completeness. */
  lemma DefaultNotesIncomplete(a: Annotation)
    requires a.notes == PyStr("")
    ensures !Complete(AnnotationEntry(a))
    ensures Score(AnnotationEntry(a), ["completeness", "format", "consistency"]) <= 2
  {
    AnnotationRules(a);
    ScoreByOccurrences(AnnotationEntry(a), ["completeness", "format", "consistency"]);
  }

  /** A well-formed annotation scores 3 out of 3 on the three criteria. */
  lemma WellFormedAnnotationFullScore(a: Annotation)
    requires a.imageId.PyStr? && a.imageId.s != "" && a.category != "" && a.timestamp != ""
    requires a.confidence.PyInt? && 1 <= a.confidence.n <= 5
    requires Truthy(a.notes)
    ensures QualityOf(AnnotationEntry(a), ["completeness", "format", "consistency"], a.timestamp).Ok?
    ensures QualityOf(AnnotationEntry(a), ["completeness", "format", "consistency"], a.timestamp).value.score == 3
    ensures QualityOf(AnnotationEntry(a), ["completeness", "format", "consistency"], a.timestamp)
      .value.percentage == 100.0
  {
    var cs := ["completeness", "format", "consistency"];
    AnnotationRules(a);
    ScoreByOccurrences(AnnotationEntry(a), cs);
  }

  /** `quality_check(entry, criteria)`: ZeroDivisionError for an empty criteria
      list, otherwise the scored result. */
  function QualityOf(entry: Entry, criteria: seq<string>, timestamp: string): Result<QualityResult, PyError>
  {
    if |criteria| == 0 then Err(ZeroDivisionError)
    else
      var score := Score(entry, criteria);
      Ok(QualityResult(entry, score, |criteria|, Percent(score, |criteria|),
                       Feedback(entry, criteria), timestamp))
  }

  /** The invariant every logged quality result keeps. */
  ghost predicate WellFormedResult(q: QualityResult)
  {
    && q.maxScore > 0
    && q.score <= q.maxScore
    && |q.feedback| <= q.maxScore
    && q.percentage == Percent(q.score, q.maxScore)
  }

  /** The quality check fails exactly on an empty criteria list; otherwise its
      result keeps the invariant, its maximum is the number of names and its
      percentage lies in [0, 100]. */
  lemma QualityOfFacts(entry: Entry, criteria: seq<string>, timestamp: string)
    ensures QualityOf(entry, criteria, timestamp).Err? <==> |criteria| == 0
    ensures QualityOf(entry, criteria, timestamp).Ok? ==>
      var q := QualityOf(entry, criteria, timestamp).value;
      && WellFormedResult(q)
      && q.maxScore == |criteria|
      && |q.feedback| == |RecognisedOnly(criteria)|
      && 0.0 <= q.percentage <= 100.0
  {
    ScoreBounds(entry, criteria);
  }

  /** Python's string for each outcome. */
  function WinnerName(w: Winner): (s: string)
    ensures s in {"A", "B", "Tie"}
  {
    match w
    case A => "A"
    case B => "B"
    case Tie => "Tie"
  }

  /** The outcome a winner string names. The tool never parses one; this
      serves only to show that the stored string loses nothing. */
  function ParseWinner(s: string): Option<Winner>
  {
    if s == "A" then Some(A) else if s == "B" then Some(B) else if s == "Tie" then Some(Tie) else None
  }

  /** The stored winner string identifies the injected outcome. */
  lemma WinnerRoundTrip(w: Winner)
    ensures ParseWinner(WinnerName(w)) == Some(w)
  {
  }

  /** `[a['category'] for a in annotations]`. */
  function Categories(anns: seq<Annotation>): (cs: seq<string>)
    ensures |cs| == |anns|
    ensures forall i :: 0 <= i < |anns| ==> cs[i] == anns[i].category
  {
    seq(|anns|, i requires 0 <= i < |anns| => anns[i].category)
  }

  /** `[a['confidence'] for a in annotations]`. */
  function Confidences(anns: seq<Annotation>): (vs: seq<Value>)
    ensures |vs| == |anns|
    ensures forall i :: 0 <= i < |anns| ==> vs[i] == anns[i].confidence
  {
    seq(|anns|, i requires 0 <= i < |anns| => anns[i].confidence)
  }

  /** `consistency_check()`: None below two annotations, TypeError when a
      confidence is not a number, otherwise the report. */
  function ConsistencyOf(anns: seq<Annotation>): Result<Option<ConsistencyReport>, PyError>
  {
    if |anns| < 2 then Ok(None)
    else
      var categories, confidences := Categories(anns), Confidences(anns);
      if !AllNumeric(confidences) then Err(TypeError)
      else
        var unique := |Distinct(categories)|;
        Ok(Some(ConsistencyReport(|anns|, unique, Mean(Numbers(confidences)),
                                  Histogram(categories), Percent(unique, |categories|))))
  }

  /** The three outcomes of the consistency check and when each happens. */
  lemma ConsistencyOutcomes(anns: seq<Annotation>)
    ensures ConsistencyOf(anns) == Ok(None) <==> |anns| < 2
    ensures ConsistencyOf(anns).Err? <==>
      |anns| >= 2 && exists i :: 0 <= i < |anns| && Numeric(anns[i].confidence).None?
  {
  }

  /** The report's distribution counts every category occurrence, its keys are
      the distinct categories, and the score lies in (0, 100]. */
  lemma {:induction false} ConsistencyReportFacts(anns: seq<Annotation>)
    requires ConsistencyOf(anns).Ok? && ConsistencyOf(anns).value.Some?
    ensures var r := ConsistencyOf(anns).value.value;
      && r.totalAnnotations == |anns|
      && Total(r.categoryDistribution) == r.totalAnnotations
      && |r.categoryDistribution.Keys| == r.uniqueCategories
      && (forall k :: k in r.categoryDistribution ==>
            r.categoryDistribution[k] == multiset(Categories(anns))[k])
      && 1 <= r.uniqueCategories <= r.totalAnnotations
      && 0.0 < r.consistencyScore <= 100.0
  {
    var cs := Categories(anns);
    HistogramCounts(cs);
    HistogramTotal(cs);
    DistinctBounds(cs);
  }

  /** Confidences all on the 1..5 scale average to a value on that scale. */
  lemma AverageConfidenceOnScale(anns: seq<Annotation>)
    requires |anns| >= 2
    requires forall i :: 0 <= i < |anns| ==> anns[i].confidence.PyInt? && 1 <= anns[i].confidence.n <= 5
    ensures ConsistencyOf(anns).Ok? && ConsistencyOf(anns).value.Some?
    ensures 1.0 <= ConsistencyOf(anns).value.value.avgConfidence <= 5.0
  {
    var vs := Confidences(anns);
    assert AllNumeric(vs);
    MeanBounds(Numbers(vs), 1.0, 5.0);
  }

  /** Categories [A, A, B]: two distinct out of three, a score of 200/3. */
  lemma ConsistencyExample(x: Annotation, y: Annotation, z: Annotation)
    requires x.category == y.category != z.category
    requires x.confidence.PyInt? && y.confidence.PyInt? && z.confidence.PyInt?
    ensures ConsistencyOf([x, y, z]).Ok? && ConsistencyOf([x, y, z]).value.Some?
    ensures ConsistencyOf([x, y, z]).value.value.uniqueCategories == 2
    ensures ConsistencyOf([x, y, z]).value.value.consistencyScore == 200.0 / 3.0
  {
    var cs := Categories([x, y, z]);
    assert cs == [x.category, x.category, z.category];
    assert Distinct(cs) == {x.category, z.category};
    assert AllNumeric(Confidences([x, y, z]));
  }

  /** The percentage of each logged quality result. */
  function Percentages(qs: seq<QualityResult>): (ps: seq<real>)
    ensures |ps| == |qs|
    ensures forall i :: 0 <= i < |qs| ==> ps[i] == qs[i].percentage
  {
    seq(|qs|, i requires 0 <= i < |qs| => qs[i].percentage)
  }

  /** One CSV row: the record's values in header order. */
  function Row(a: Annotation): (row: seq<Value>)
    ensures |row| == |AnnotationKeys|
    ensures forall j :: 0 <= j < |row| ==> row[j] == AnnotationEntry(a)[AnnotationKeys[j]]
  {
    [a.imageId, PyStr(a.category), a.confidence, PyStr(a.timestamp), a.notes]
  }

  class DataAnnotationTool {
    var annotations: seq<Annotation>
    var qualityScores: seq<QualityResult>
    var comparisonResults: seq<ComparisonResult>

    /** Every logged quality result is well formed and every logged winner is
        one of the three outcomes. */
    ghost predicate Valid()
      reads this
    {
      && (forall i :: 0 <= i < |qualityScores| ==> WellFormedResult(qualityScores[i]))
      && (forall i :: 0 <= i < |comparisonResults| ==> comparisonResults[i].winner in {"A", "B", "Tie"})
    }

    constructor ()
      ensures Valid()
      ensures annotations == [] && qualityScores == [] && comparisonResults == []
    {
      annotations, qualityScores, comparisonResults := [], [], [];
    }

    /** `annotate_image`: records and returns one annotation. */
    method AnnotateImage(imageId: Value, category: string, confidence: Value, timestamp: string,
                         notes: Value := PyStr(""))
      returns (a: Annotation)
      requires Valid()
      modifies this
      ensures Valid()
      ensures a.imageId == imageId && a.category == category && a.confidence == confidence
      ensures a.timestamp == timestamp && a.notes == notes
      ensures annotations == old(annotations) + [a]
      ensures qualityScores == old(qualityScores) && comparisonResults == old(comparisonResults)
    {
      a := Annotation(imageId, category, confidence, timestamp, notes);
      annotations := annotations + [a];
    }

    /** `quality_check`: scores `entry` against `criteria` and logs the result;
        an empty criteria list raises ZeroDivisionError and logs nothing. */
    method QualityCheck(entry: Entry, criteria: seq<string>, timestamp: string)
      returns (r: Result<QualityResult, PyError>)
      requires Valid()
      modifies this
      ensures Valid()
      ensures r == QualityOf(entry, criteria, timestamp)
      ensures r.Err? <==> |criteria| == 0
      ensures r.Ok? ==> r.value.score <= r.value.maxScore == |criteria|
      ensures qualityScores == if r.Ok? then old(qualityScores) + [r.value] else old(qualityScores)
      ensures annotations == old(annotations) && comparisonResults == old(comparisonResults)
    {
      var score: nat := 0;
      var maxScore := |criteria|;
      var feedback: seq<string> := [];
      for i := 0 to |criteria|
        invariant score == Score(entry, criteria[..i])
        invariant feedback == Feedback(entry, criteria[..i])
      {
        assert criteria[..i + 1][..i] == criteria[..i];
        var criterion := criteria[i];
        if criterion == "completeness" {
          if Complete(entry) {
            score := score + 1;
            feedback := feedback + ["✓ Complete"];
          } else {
            feedback := feedback + ["✗ Missing data"];
          }
        } else if criterion == "format" {
          if WellFormatted(entry) {
            score := score + 1;
            feedback := feedback + ["✓ Correct format"];
          } else {
            feedback := feedback + ["✗ Format issue"];
          }
        } else if criterion == "consistency" {
          if ConsistentConfidence(entry) {
            score := score + 1;
            feedback := feedback + ["✓ Consistent"];
          } else {
            feedback := feedback + ["✗ Inconsistent value"];
          }
        }
      }
      assert criteria[..|criteria|] == criteria;
      if maxScore == 0 {
        return Err(ZeroDivisionError);
      }
      QualityOfFacts(entry, criteria, timestamp);
      var result := QualityResult(entry, score, maxScore, Percent(score, maxScore), feedback, timestamp);
      qualityScores := qualityScores + [result];
      r := Ok(result);
    }

    /** `pairwise_comparison`: logs one comparison whose winner is the injected outcome. */
    method PairwiseComparison(itemA: Value, itemB: Value, criterion: string, choice: Winner, timestamp: string)
      returns (c: ComparisonResult)
      requires Valid()
      modifies this
      ensures Valid()
      ensures c == ComparisonResult(itemA, itemB, criterion, WinnerName(choice), timestamp)
      ensures c.winner in {"A", "B", "Tie"}
      ensures comparisonResults == old(comparisonResults) + [c]
      ensures annotations == old(annotations) && qualityScores == old(qualityScores)
    {
      c := ComparisonResult(itemA, itemB, criterion, WinnerName(choice), timestamp);
      comparisonResults := comparisonResults + [c];
    }

    /** `consistency_check`: reads the annotations and changes nothing. */
    method ConsistencyCheck() returns (r: Result<Option<ConsistencyReport>, PyError>)
      ensures r == ConsistencyOf(annotations)
      ensures r == Ok(None) <==> |annotations| < 2
      ensures r.Ok? && r.value.Some? ==>
        && Total(r.value.value.categoryDistribution) == |annotations|
        && |r.value.value.categoryDistribution.Keys| == r.value.value.uniqueCategories
        && 0.0 < r.value.value.consistencyScore <= 100.0
    {
      if |annotations| < 2 {
        return Ok(None);
      }
      var categories := Categories(annotations);
      var confidences := Confidences(annotations);
      if !AllNumeric(confidences) {
        return Err(TypeError);
      }
      var total := |annotations|;
      var unique := |Distinct(categories)|;
      var avg := Sum(Numbers(confidences)) / |confidences| as real;
      var distribution: map<string, nat> := map[];
      var i := 0;
      while i < |categories|
        invariant 0 <= i <= |categories|
        invariant distribution == Histogram(categories[..i])
      {
        var cat := categories[i];
        assert categories[..i + 1][..i] == categories[..i];
        distribution := distribution[cat := (if cat in distribution then distribution[cat] else 0) + 1];
        i := i + 1;
      }
      assert categories[..i] == categories;
      r := Ok(Some(ConsistencyReport(total, unique, avg, distribution, Percent(unique, |categories|))));
      assert r == ConsistencyOf(annotations);
      ConsistencyReportFacts(annotations);
    }

    /** `generate_report`'s in-memory report; reads the logs and changes nothing. */
    method GenerateReport(generatedAt: string) returns (report: Report)
      requires Valid()
      ensures report.summary.totalAnnotations == |annotations|
      ensures report.summary.totalQualityChecks == |qualityScores|
      ensures report.summary.totalComparisons == |comparisonResults|
      ensures report.summary.generatedAt == generatedAt
      ensures report.summary.averageQualityScore.Some? <==> |qualityScores| > 0
      ensures report.summary.averageQualityScore.Some? ==>
        report.summary.averageQualityScore.value == Mean(Percentages(qualityScores))
      ensures report.summary.averageQualityScore.Some? ==>
        0.0 <= report.summary.averageQualityScore.value <= 100.0
      ensures report.annotations == annotations && report.qualityScores == qualityScores
      ensures report.comparisons == comparisonResults
    {
      var average: Option<real> := None;
      if |qualityScores| > 0 {
        average := Some(Mean(Percentages(qualityScores)));
        MeanBounds(Percentages(qualityScores), 0.0, 100.0);
      }
      var summary := Summary(|annotations|, |qualityScores|, |comparisonResults|, generatedAt, average);
      report := Report(summary, annotations, qualityScores, comparisonResults);
    }

    /** `export_to_csv`'s content: None for an empty log (nothing is written),
        otherwise the header of the first record's keys and one row per annotation. */
    method ExportToCsv() returns (written: Option<CsvTable>)
      ensures written.None? <==> |annotations| == 0
      ensures written.Some? ==>
        && written.value.header == AnnotationKeys
        && |written.value.rows| == |annotations|
        && forall i, j :: 0 <= i < |annotations| && 0 <= j < |AnnotationKeys| ==>
             |written.value.rows[i]| == |AnnotationKeys| &&
             written.value.rows[i][j] == AnnotationEntry(annotations[i])[AnnotationKeys[j]]
    {
      if |annotations| == 0 {
        return None;
      }
      var anns := annotations;
      var rows := seq(|anns|, i requires 0 <= i < |anns| => Row(anns[i]));
      written := Some(CsvTable(AnnotationKeys, rows));
    }
  }
}
