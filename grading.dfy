/**
 * backend.py, the grade side:
 *
 *  - the grade labels of the synthetic training data (backend.py:27-45),
 *  - the deterministic part of `predict_grade` around the classifier
 *    (backend.py:103-122): MST normalisation, argmax, probability map,
 *  - the colour lookups `get_grade_color` / `get_risk_color` (backend.py:207-215).
 *
 * The random forest itself is not modelled: `predict_grade` receives the
 * classifier's `predict_proba` as a function parameter.
 */
module Grading {
  import opened Wrappers
  import opened Metrics
  import Backend

  // ------------------------------------------------------------------
  // Grade labels of the synthetic data (backend.py:27-45)
  // ------------------------------------------------------------------

  /**
   * The weighted score of one synthetic row (backend.py:27-37). `mst` is
   * already on the 0-100 scale here (backend.py:19 samples it that way);
   * every other metric is scaled to 0-100 by its sampling maximum. The
   * nine weights sum to 1, so a row with every metric between 0 and that
   * maximum scores in [0, 100].
   */
  function SyntheticScore(m: MetricVector): (score: real)
    ensures InSamplingRange(m) ==> 0.0 <= score <= 100.0
  {
    m.marks * 0.30
    + m.attendance * 0.15
    + m.mstMarks * 0.25
    + (m.studyHours / 40.0) * 100.0 * 0.10
    + (m.assignments / 100.0) * 100.0 * 0.05
    + (m.extracurriculars / 10.0) * 100.0 * 0.05
    + (m.projects as real / 5.0) * 100.0 * 0.05
    + (m.certifications as real / 4.0) * 100.0 * 0.03
    + (m.internships as real / 2.0) * 100.0 * 0.02
  }

  /**
   * Every metric between 0 and the upper end of the range backend.py:16-25
   * samples it from. This is wider than the sampled ranges: attendance is
   * sampled from 50 and marks and assignments from 30, and extracurriculars
   * are drawn as whole numbers where this allows any real.
   */
  predicate InSamplingRange(m: MetricVector)
  {
    && 0.0 <= m.attendance <= 100.0
    && 0.0 <= m.marks <= 100.0
    && 0.0 <= m.mstMarks <= 100.0
    && 0.0 <= m.studyHours <= 40.0
    && 0.0 <= m.assignments <= 100.0
    && 0.0 <= m.extracurriculars <= 10.0
    && 0 <= m.projects <= 5
    && 0 <= m.certifications <= 4
    && 0 <= m.internships <= 2
  }

  /** The weights sum to 1: a row at every scale maximum scores exactly 100. */
  lemma SyntheticScoreTop()
    ensures SyntheticScore(MetricVector(100.0, 100.0, 100.0, 40.0, 100.0, 10.0, 5, 4, 2)) == 100.0
  {
  }

  /** `np.clip(x, 0, 100)` (backend.py:39). */
  function ClipScore(x: real): (r: real)
    ensures 0.0 <= r <= 100.0
    ensures 0.0 <= x <= 100.0 ==> r == x
    ensures x < 0.0 ==> r == 0.0
    ensures x > 100.0 ==> r == 100.0
  {
    if x < 0.0 then 0.0 else if x > 100.0 then 100.0 else x
  }

  /**
   * The four masked assignments of backend.py:41-45, in order, over an
   * array that starts out empty (`None`). A later mask overwrites an
   * earlier one; the masks are disjoint and together cover every score.
   */
  function MaskedLabel(score: real): (grade: Option<string>)
    ensures grade.Some?
    ensures grade == Some("A") <==> score >= 85.0
    ensures grade == Some("B") <==> 70.0 <= score < 85.0
    ensures grade == Some("C") <==> 55.0 <= score < 70.0
    ensures grade == Some("D") <==> score < 55.0
  {
    var empty: Option<string> := None;
    var afterA := if score >= 85.0 then Some("A") else empty;
    var afterB := if score >= 70.0 && score < 85.0 then Some("B") else afterA;
    var afterC := if score >= 55.0 && score < 70.0 then Some("C") else afterB;
    if score < 55.0 then Some("D") else afterC
  }

  /** The grade of a score: exactly one of A, B, C, D. */
  function GradeLabel(score: real): (grade: string)
    ensures grade in {"A", "B", "C", "D"}
    ensures grade == "A" <==> score >= 85.0
    ensures grade == "B" <==> 70.0 <= score < 85.0
    ensures grade == "C" <==> 55.0 <= score < 70.0
    ensures grade == "D" <==> score < 55.0
  {
    MaskedLabel(score).value
  }

  /** Orders the grades: 0 for A down to 3 for D, 4 for anything else. */
  function GradeRank(grade: string): nat
  {
    if grade == "A" then 0 else if grade == "B" then 1 else if grade == "C" then 2 else if grade == "D" then 3 else 4
  }

  /** A higher score never gets a worse grade. */
  lemma GradeLabelMonotone(s1: real, s2: real)
    requires s1 <= s2
    ensures GradeRank(GradeLabel(s2)) <= GradeRank(GradeLabel(s1))
  {
  }

  // ------------------------------------------------------------------
  // predict_grade (backend.py:103-122)
  // ------------------------------------------------------------------

  /** `(mst_marks / 40.0) * 100.0`: MST is out of 40, the classifier sees it out of 100. */
  function NormalizeMst(mst: real): (n: real)
    ensures n * 40.0 == mst * 100.0
    ensures 0.0 <= mst <= 40.0 ==> 0.0 <= n <= 100.0
    ensures mst == 40.0 ==> n == 100.0
  {
    (mst / 40.0) * 100.0
  }

  /** The order of the classifier's feature columns (backend.py:115-116). */
  const FeatureOrder: seq<Field> := [
    Attendance, Marks, MstMarks, StudyHours, Assignments,
    Extracurriculars, Projects, Certifications, Internships
  ]

  /** The feature row `X` of backend.py:115-116. */
  function Features(m: MetricVector): (x: seq<real>)
    ensures |x| == |FeatureOrder|
    ensures x[2] == NormalizeMst(m.mstMarks)
    ensures forall i :: 0 <= i < |x| && i != 2 ==> x[i] == Value(m, FeatureOrder[i])
  {
    [m.attendance, m.marks, NormalizeMst(m.mstMarks), m.studyHours, m.assignments,
     m.extracurriculars, m.projects as real, m.certifications as real, m.internships as real]
  }

  /** `np.argmax`: the first position of a largest entry. */
  function ArgMax(probs: seq<real>): (i: nat)
    requires |probs| > 0
    ensures i < |probs|
    ensures forall j :: 0 <= j < |probs| ==> probs[j] <= probs[i]
    ensures forall j :: 0 <= j < i ==> probs[j] < probs[i]
  {
    if |probs| == 1 then 0
    else
      var best := ArgMax(probs[..|probs| - 1]);
      if probs[|probs| - 1] > probs[best] then |probs| - 1 else best
  }

  /**
   * `{label: float(prob) for label, prob in zip(classes, probs)}`: a later
   * pair overwrites an earlier one with the same label.
   */
  function ZipMap(classes: seq<string>, probs: seq<real>): (pm: map<string, real>)
    requires |classes| == |probs|
    ensures forall c :: c in pm <==> c in classes
  {
    if classes == [] then map[]
    else
      var n := |classes| - 1;
      ZipMap(classes[..n], probs[..n])[classes[n] := probs[n]]
  }

  /** Each label maps to the probability of its last occurrence. */
  lemma {:induction false} ZipMapLast(classes: seq<string>, probs: seq<real>, i: nat)
    requires |classes| == |probs|
    requires i < |classes|
    requires forall j :: i < j < |classes| ==> classes[j] != classes[i]
    ensures ZipMap(classes, probs)[classes[i]] == probs[i]
  {
    var n := |classes| - 1;
    if i < n {
      ZipMapLast(classes[..n], probs[..n], i);
    }
  }

  /** What `predict_grade` returns: the grade and the probability map. */
  datatype Prediction = Prediction(grade: string, probs: map<string, real>)

  /** Labels with no repeats, as a classifier's `classes_` are. */
  predicate Distinct(classes: seq<string>)
  {
    forall i, j :: 0 <= i < j < |classes| ==> classes[i] != classes[j]
  }

  /**
   * `predict_grade`: run the classifier on the feature row, pick the class
   * at the argmax, and return the class-to-probability map.
   */
  function PredictGrade(classes: seq<string>, predictProba: seq<real> -> seq<real>, m: MetricVector): (p: Prediction)
    requires |classes| > 0
    requires |predictProba(Features(m))| == |classes|
    ensures p.grade in classes
    ensures p.grade == classes[ArgMax(predictProba(Features(m)))]
    ensures forall c :: c in p.probs <==> c in classes
  {
    var probs := predictProba(Features(m));
    Prediction(classes[ArgMax(probs)], ZipMap(classes, probs))
  }

  /**
   * With distinct class labels, the predicted grade carries the largest
   * probability of the returned map, and every grade maps to its own
   * probability.
   */
  lemma PredictedLabelIsMostLikely(classes: seq<string>, predictProba: seq<real> -> seq<real>, m: MetricVector)
    requires |classes| > 0
    requires |predictProba(Features(m))| == |classes|
    requires Distinct(classes)
    ensures var p := PredictGrade(classes, predictProba, m);
      var probs := predictProba(Features(m));
      && (forall i :: 0 <= i < |classes| ==> p.probs[classes[i]] == probs[i])
      && (forall c :: c in p.probs ==> p.probs[c] <= p.probs[p.grade])
  {
    var probs := predictProba(Features(m));
    var pm := ZipMap(classes, probs);
    forall i | 0 <= i < |classes|
      ensures pm[classes[i]] == probs[i]
    {
      ZipMapLast(classes, probs, i);
    }
    forall c | c in pm
      ensures pm[c] <= pm[classes[ArgMax(probs)]]
    {
      var i :| 0 <= i < |classes| && classes[i] == c;
    }
  }

  /**
   * The map `predict_grade` returns feeds the risk engine: with the classes
   * A, B, C, D the classifier term is P(D) + 0.5 P(C).
   */
  lemma PredictionFeedsRisk(predictProba: seq<real> -> seq<real>, m: MetricVector)
    requires |predictProba(Features(m))| == 4
    ensures var p := PredictGrade(["A", "B", "C", "D"], predictProba, m);
      var probs := predictProba(Features(m));
      Backend.ProbabilityTerm(Some(p.probs)) == probs[3] * 1.0 + probs[2] * 0.5
  {
    var classes := ["A", "B", "C", "D"];
    PredictedLabelIsMostLikely(classes, predictProba, m);
    var p := PredictGrade(classes, predictProba, m);
    assert classes[0] in p.probs;
    assert classes[2] == "C" && classes[3] == "D";
  }

  // ------------------------------------------------------------------
  // Colour lookups (backend.py:207-215)
  // ------------------------------------------------------------------

  /** The grey both lookups fall back to for an unknown key. */
  const DefaultColor := "#6b7280"

  /** `get_grade_color`: a dictionary lookup with a grey default. */
  function GradeColor(grade: string): (color: string)
    ensures grade == "A" ==> color == "#10b981"
    ensures grade == "B" ==> color == "#3b82f6"
    ensures grade == "C" ==> color == "#f59e0b"
    ensures grade == "D" ==> color == "#ef4444"
    ensures color == DefaultColor <==> grade !in {"A", "B", "C", "D"}
  {
    var colors := map["A" := "#10b981", "B" := "#3b82f6", "C" := "#f59e0b", "D" := "#ef4444"];
    if grade in colors then colors[grade] else DefaultColor
  }

  /** `get_risk_color`: a dictionary lookup with a grey default. */
  function RiskColor(level: string): (color: string)
    ensures level == "Low" ==> color == "#10b981"
    ensures level == "Medium" ==> color == "#f59e0b"
    ensures level == "High" ==> color == "#ef4444"
    ensures color == DefaultColor <==> level !in {"Low", "Medium", "High"}
  {
    var colors := map["Low" := "#10b981", "Medium" := "#f59e0b", "High" := "#ef4444"];
    if level in colors then colors[level] else DefaultColor
  }

  /**
   * Every grade and every risk level the model produces has its own
   * colour; the best grade shares green with Low risk, the worst shares
   * red with High risk.
   */
  lemma ColorsCoverOutputs(score: real, risk: real)
    ensures GradeColor(GradeLabel(score)) != DefaultColor
    ensures RiskColor(Backend.LevelOf(risk)) != DefaultColor
    ensures GradeColor("A") == RiskColor("Low") && GradeColor("D") == RiskColor("High")
  {
  }
}
