/**
 * backend.py: the deterministic decision layer around the grade predictor.
 *
 *  - the risk scoring engine `calculate_risk` (backend.py:124-173),
 *  - the recommendation generator `generate_recommendation` (backend.py:175-203),
 *  - the synthetic-data labelling thresholds (backend.py:27-45),
 *  - the argmax / probability-map contract of `predict_grade` (backend.py:103-122),
 *  - the colour lookups `get_grade_color` / `get_risk_color` (backend.py:207-215).
 *
 * All metrics and scores are exact reals: the IEEE-754 rounding of Python
 * floats (notably at the 0.4 and 0.7 risk cut-points) is not modelled.
 */
module Backend {
  import opened Wrappers
  import opened Metrics
  import opened Rules
  import opened Text

  // ------------------------------------------------------------------
  // Risk scoring engine (backend.py:124-173)
  // ------------------------------------------------------------------

  /** What a firing risk rule does: add a fixed weight and append one tip. */
  datatype Contribution = Contribution(weight: real, tip: string)

  /** The tips of the nine risk rules (backend.py:140-165). */
  const AttendanceTip := "Improve attendance to at least 85% for better outcomes."
  const MarksTip := "Focus on core subjects to raise marks above 70%."
  const MstTip := "MST performance is low. Schedule revision sessions weekly."
  const StudyTip := "Increase study hours to at least 12-15 hours per week."
  const AssignmentsTip := "Complete and revise assignments to boost score."
  const ExtracurricularsTip := "Engage in extracurricular activities for balance."
  const ProjectsTip := "Complete project work to enhance practical skills."
  const CertificationsTip := "Earn certifications to boost your profile."
  const InternshipsTip := "Consider internship opportunities for industry experience."

  /** The nine risk rules of backend.py:138-165. */
  const AttendanceRule := Rule(Below(Attendance, 75.0), Contribution(0.20, AttendanceTip))
  const MarksRule := Rule(Below(Marks, 60.0), Contribution(0.25, MarksTip))
  const MstRule := Rule(Below(MstMarks, 16.0), Contribution(0.20, MstTip))
  const StudyRule := Rule(Below(StudyHours, 8.0), Contribution(0.10, StudyTip))
  const AssignmentsRule := Rule(Below(Assignments, 60.0), Contribution(0.15, AssignmentsTip))
  const ExtracurricularsRule := Rule(Below(Extracurriculars, 2.0), Contribution(0.05, ExtracurricularsTip))
  const ProjectsRule := Rule(IsZero(Projects), Contribution(0.10, ProjectsTip))
  const CertificationsRule := Rule(IsZero(Certifications), Contribution(0.08, CertificationsTip))
  const InternshipsRule := Rule(IsZero(Internships), Contribution(0.07, InternshipsTip))

  /** The risk rules in the order backend.py tests them. */
  const RiskRules: seq<Rule<Contribution>> := [
    AttendanceRule, MarksRule, MstRule, StudyRule, AssignmentsRule,
    ExtracurricularsRule, ProjectsRule, CertificationsRule, InternshipsRule
  ]

  /** The single tip given when no risk rule fires (backend.py:170-171). */
  const GreatJobTip := "Great job! Maintain consistency to keep your performance high."

  function TotalWeight(cs: seq<Contribution>): real
  {
    if cs == [] then 0.0 else TotalWeight(cs[..|cs| - 1]) + cs[|cs| - 1].weight
  }

  function TipsOf(cs: seq<Contribution>): (tips: seq<string>)
    ensures |tips| == |cs|
  {
    if cs == [] then [] else TipsOf(cs[..|cs| - 1]) + [cs[|cs| - 1].tip]
  }

  /** `prob_map.get(key, 0.0)`: a missing class counts as probability 0. */
  function Get(probs: map<string, real>, key: string): (p: real)
    ensures key in probs ==> p == probs[key]
    ensures key !in probs ==> p == 0.0
  {
    if key in probs then probs[key] else 0.0
  }

  /**
   * The classifier's share of the risk (backend.py:134-136). `if prob_map:`
   * is false both for `None` and for an empty dict.
   */
  function ProbabilityTerm(probMap: Option<map<string, real>>): (t: real)
    ensures probMap.None? || probMap.value == map[] ==> t == 0.0
    ensures probMap.Some? && "D" !in probMap.value && "C" !in probMap.value ==> t == 0.0
    ensures probMap.Some? && "D" in probMap.value && "C" !in probMap.value ==> t == probMap.value["D"]
    ensures probMap.Some? && "D" !in probMap.value && "C" in probMap.value ==> t == probMap.value["C"] * 0.5
    ensures probMap.Some? && "D" in probMap.value && "C" in probMap.value ==> t == probMap.value["D"] + probMap.value["C"] * 0.5
  {
    if probMap.Some? && probMap.value != map[] then
      Get(probMap.value, "D") * 1.0 + Get(probMap.value, "C") * 0.5
    else 0.0
  }

  /** `min(max(x, 0.0), 1.0)` (backend.py:167). */
  function Clamp(x: real): (r: real)
    ensures 0.0 <= r <= 1.0
    ensures 0.0 <= x <= 1.0 ==> r == x
    ensures x < 0.0 ==> r == 0.0
    ensures x > 1.0 ==> r == 1.0
  {
    var atLeastZero := if 0.0 > x then 0.0 else x;
    if 1.0 < atLeastZero then 1.0 else atLeastZero
  }

  /** The risk level of a score (backend.py:168): exactly one level applies. */
  function LevelOf(risk: real): (level: string)
    ensures level == "Low" <==> risk < 0.4
    ensures level == "Medium" <==> 0.4 <= risk < 0.7
    ensures level == "High" <==> 0.7 <= risk
  {
    if risk < 0.4 then "Low" else if risk < 0.7 then "Medium" else "High"
  }

  /** Orders the levels: 0 for Low up to 2 for High, 3 for anything else. */
  function LevelRank(level: string): nat
  {
    if level == "Low" then 0 else if level == "Medium" then 1 else if level == "High" then 2 else 3
  }

  /** A higher risk score never gives a lower level. */
  lemma LevelMonotone(r1: real, r2: real)
    requires r1 <= r2
    ensures LevelRank(LevelOf(r1)) <= LevelRank(LevelOf(r2))
  {
  }

  /** The score `calculate_risk` returns: the classifier term plus every firing rule's weight, clamped. */
  function RiskScore(m: MetricVector, probMap: Option<map<string, real>>): (risk: real)
    ensures 0.0 <= risk <= 1.0
  {
    Clamp(ProbabilityTerm(probMap) + TotalWeight(Triggered(RiskRules, m)))
  }

  /** The tips `calculate_risk` returns: one per firing rule, or the single fallback tip. */
  function RiskTips(m: MetricVector): (tips: seq<string>)
    ensures tips != []
  {
    var fired := TipsOf(Triggered(RiskRules, m));
    if fired == [] then [GreatJobTip] else fired
  }

  function FireWeight(r: Rule<Contribution>, m: MetricVector): real
  {
    if Holds(r.cond, m) then r.action.weight else 0.0
  }

  function FireTips(r: Rule<Contribution>, m: MetricVector): seq<string>
  {
    if Holds(r.cond, m) then [r.action.tip] else []
  }

  /** One more rule of a table adds what that rule fires to the weight. */
  lemma ExtendWeight(rules: seq<Rule<Contribution>>, k: nat, m: MetricVector)
    requires k < |rules|
    ensures TotalWeight(Triggered(rules[..k + 1], m)) == TotalWeight(Triggered(rules[..k], m)) + FireWeight(rules[k], m)
  {
    TriggeredStep(rules, k, m);
    var before := Triggered(rules[..k], m);
    if Holds(rules[k].cond, m) {
      assert (before + [rules[k].action])[..|before|] == before;
    } else {
      assert before + [] == before;
    }
  }

  /** One more rule of a table appends what that rule fires to the tips. */
  lemma ExtendTips(rules: seq<Rule<Contribution>>, k: nat, m: MetricVector)
    requires k < |rules|
    ensures TipsOf(Triggered(rules[..k + 1], m)) == TipsOf(Triggered(rules[..k], m)) + FireTips(rules[k], m)
  {
    TriggeredStep(rules, k, m);
    var before := Triggered(rules[..k], m);
    if Holds(rules[k].cond, m) {
      assert (before + [rules[k].action])[..|before|] == before;
    } else {
      assert before + [] == before;
    }
  }

  /** The weight of the firing rules among the first k rules of a table. */
  ghost function WeightUpTo(rules: seq<Rule<Contribution>>, m: MetricVector, k: nat): real
    requires k <= |rules|
  {
    if k == 0 then 0.0 else WeightUpTo(rules, m, k - 1) + FireWeight(rules[k - 1], m)
  }

  /** The tips of the firing rules among the first k rules of a table. */
  ghost function TipsUpTo(rules: seq<Rule<Contribution>>, m: MetricVector, k: nat): seq<string>
    requires k <= |rules|
  {
    if k == 0 then [] else TipsUpTo(rules, m, k - 1) + FireTips(rules[k - 1], m)
  }

  /** Counting rule by rule agrees with running the first k rules of the table: weights. */
  lemma {:induction false} WeightUpToIsTriggered(rules: seq<Rule<Contribution>>, m: MetricVector, k: nat)
    requires k <= |rules|
    ensures WeightUpTo(rules, m, k) == TotalWeight(Triggered(rules[..k], m))
  {
    if k > 0 {
      var j := k - 1;
      WeightUpToIsTriggered(rules, m, j);
      ExtendWeight(rules, j, m);
      assert rules[..j + 1] == rules[..k];
      assert WeightUpTo(rules, m, k) == WeightUpTo(rules, m, j) + FireWeight(rules[j], m);
    } else {
      assert rules[..0] == [];
    }
  }

  /** Counting rule by rule agrees with running the first k rules of the table: tips. */
  lemma {:induction false} TipsUpToIsTriggered(rules: seq<Rule<Contribution>>, m: MetricVector, k: nat)
    requires k <= |rules|
    ensures TipsUpTo(rules, m, k) == TipsOf(Triggered(rules[..k], m))
  {
    if k > 0 {
      var j := k - 1;
      TipsUpToIsTriggered(rules, m, j);
      ExtendTips(rules, j, m);
      assert rules[..j + 1] == rules[..k];
      assert TipsUpTo(rules, m, k) == TipsUpTo(rules, m, j) + FireTips(rules[j], m);
    } else {
      assert rules[..0] == [];
    }
  }

  /** The weight of the risk table, rule by rule, as the nine `if`s of backend.py:138-165 add it up. */
  lemma RiskWeightUnrolled(m: MetricVector)
    ensures TotalWeight(Triggered(RiskRules, m)) == FireWeight(AttendanceRule, m)
        + FireWeight(MarksRule, m)
        + FireWeight(MstRule, m)
        + FireWeight(StudyRule, m)
        + FireWeight(AssignmentsRule, m)
        + FireWeight(ExtracurricularsRule, m)
        + FireWeight(ProjectsRule, m)
        + FireWeight(CertificationsRule, m)
        + FireWeight(InternshipsRule, m)
  {
    assert WeightUpTo(RiskRules, m, 1) == FireWeight(AttendanceRule, m);
    assert WeightUpTo(RiskRules, m, 2) == FireWeight(AttendanceRule, m) + FireWeight(MarksRule, m);
    assert WeightUpTo(RiskRules, m, 3) == FireWeight(AttendanceRule, m) + FireWeight(MarksRule, m) + FireWeight(MstRule, m);
    assert WeightUpTo(RiskRules, m, 4) == FireWeight(AttendanceRule, m) + FireWeight(MarksRule, m) + FireWeight(MstRule, m) + FireWeight(StudyRule, m);
    assert WeightUpTo(RiskRules, m, 5) == FireWeight(AttendanceRule, m) + FireWeight(MarksRule, m) + FireWeight(MstRule, m) + FireWeight(StudyRule, m) + FireWeight(AssignmentsRule, m);
    assert WeightUpTo(RiskRules, m, 6) == FireWeight(AttendanceRule, m) + FireWeight(MarksRule, m) + FireWeight(MstRule, m) + FireWeight(StudyRule, m) + FireWeight(AssignmentsRule, m) + FireWeight(ExtracurricularsRule, m);
    assert WeightUpTo(RiskRules, m, 7) == FireWeight(AttendanceRule, m) + FireWeight(MarksRule, m) + FireWeight(MstRule, m) + FireWeight(StudyRule, m) + FireWeight(AssignmentsRule, m) + FireWeight(ExtracurricularsRule, m) + FireWeight(ProjectsRule, m);
    assert WeightUpTo(RiskRules, m, 8) == FireWeight(AttendanceRule, m) + FireWeight(MarksRule, m) + FireWeight(MstRule, m) + FireWeight(StudyRule, m) + FireWeight(AssignmentsRule, m) + FireWeight(ExtracurricularsRule, m) + FireWeight(ProjectsRule, m) + FireWeight(CertificationsRule, m);
    assert WeightUpTo(RiskRules, m, 9) == FireWeight(AttendanceRule, m) + FireWeight(MarksRule, m) + FireWeight(MstRule, m) + FireWeight(StudyRule, m) + FireWeight(AssignmentsRule, m) + FireWeight(ExtracurricularsRule, m) + FireWeight(ProjectsRule, m) + FireWeight(CertificationsRule, m) + FireWeight(InternshipsRule, m);
    WeightUpToIsTriggered(RiskRules, m, 9);
    assert RiskRules[..9] == RiskRules;
  }

  /** The tips of the risk table, rule by rule, as the nine `if`s of backend.py:138-165 append them. */
  lemma RiskTipsUnrolled(m: MetricVector)
    ensures TipsOf(Triggered(RiskRules, m)) == FireTips(AttendanceRule, m)
        + FireTips(MarksRule, m)
        + FireTips(MstRule, m)
        + FireTips(StudyRule, m)
        + FireTips(AssignmentsRule, m)
        + FireTips(ExtracurricularsRule, m)
        + FireTips(ProjectsRule, m)
        + FireTips(CertificationsRule, m)
        + FireTips(InternshipsRule, m)
  {
    assert TipsUpTo(RiskRules, m, 1) == FireTips(AttendanceRule, m);
    assert TipsUpTo(RiskRules, m, 2) == FireTips(AttendanceRule, m) + FireTips(MarksRule, m);
    assert TipsUpTo(RiskRules, m, 3) == FireTips(AttendanceRule, m) + FireTips(MarksRule, m) + FireTips(MstRule, m);
    assert TipsUpTo(RiskRules, m, 4) == FireTips(AttendanceRule, m) + FireTips(MarksRule, m) + FireTips(MstRule, m) + FireTips(StudyRule, m);
    assert TipsUpTo(RiskRules, m, 5) == FireTips(AttendanceRule, m) + FireTips(MarksRule, m) + FireTips(MstRule, m) + FireTips(StudyRule, m) + FireTips(AssignmentsRule, m);
    assert TipsUpTo(RiskRules, m, 6) == FireTips(AttendanceRule, m) + FireTips(MarksRule, m) + FireTips(MstRule, m) + FireTips(StudyRule, m) + FireTips(AssignmentsRule, m) + FireTips(ExtracurricularsRule, m);
    assert TipsUpTo(RiskRules, m, 7) == FireTips(AttendanceRule, m) + FireTips(MarksRule, m) + FireTips(MstRule, m) + FireTips(StudyRule, m) + FireTips(AssignmentsRule, m) + FireTips(ExtracurricularsRule, m) + FireTips(ProjectsRule, m);
    assert TipsUpTo(RiskRules, m, 8) == FireTips(AttendanceRule, m) + FireTips(MarksRule, m) + FireTips(MstRule, m) + FireTips(StudyRule, m) + FireTips(AssignmentsRule, m) + FireTips(ExtracurricularsRule, m) + FireTips(ProjectsRule, m) + FireTips(CertificationsRule, m);
    assert TipsUpTo(RiskRules, m, 9) == FireTips(AttendanceRule, m) + FireTips(MarksRule, m) + FireTips(MstRule, m) + FireTips(StudyRule, m) + FireTips(AssignmentsRule, m) + FireTips(ExtracurricularsRule, m) + FireTips(ProjectsRule, m) + FireTips(CertificationsRule, m) + FireTips(InternshipsRule, m);
    TipsUpToIsTriggered(RiskRules, m, 9);
    assert RiskRules[..9] == RiskRules;
  }

  /**
   * One `if` of backend.py:138-165: when the rule's condition holds, add its
   * weight to the running risk and append its tip.
   */
  method ApplyRiskRule(r: Rule<Contribution>, m: MetricVector, risk: real, tips: seq<string>)
    returns (risk': real, tips': seq<string>)
    ensures risk' == risk + FireWeight(r, m)
    ensures tips' == tips + FireTips(r, m)
  {
    risk', tips' := risk, tips;
    if Holds(r.cond, m) {
      risk' := risk' + r.action.weight;
      tips' := tips' + [r.action.tip];
    }
  }

  /** `calculate_risk`: accumulate the risk rule by rule, clamp, bucket, fall back. */
  method CalculateRisk(m: MetricVector, probMap: Option<map<string, real>>)
    returns (risk: real, level: string, tips: seq<string>)
    ensures risk == RiskScore(m, probMap)
    ensures level == LevelOf(risk)
    ensures tips == RiskTips(m)
  {
    risk := 0.0;
    tips := [];
    if probMap.Some? && probMap.value != map[] {
      risk := risk + Get(probMap.value, "D") * 1.0;
      risk := risk + Get(probMap.value, "C") * 0.5;
    }
    ghost var base := risk;
    risk, tips := ApplyRiskRule(AttendanceRule, m, risk, tips);
    assert tips == FireTips(AttendanceRule, m);
    risk, tips := ApplyRiskRule(MarksRule, m, risk, tips);
    risk, tips := ApplyRiskRule(MstRule, m, risk, tips);
    risk, tips := ApplyRiskRule(StudyRule, m, risk, tips);
    risk, tips := ApplyRiskRule(AssignmentsRule, m, risk, tips);
    risk, tips := ApplyRiskRule(ExtracurricularsRule, m, risk, tips);
    risk, tips := ApplyRiskRule(ProjectsRule, m, risk, tips);
    risk, tips := ApplyRiskRule(CertificationsRule, m, risk, tips);
    risk, tips := ApplyRiskRule(InternshipsRule, m, risk, tips);
    RiskWeightUnrolled(m);
    RiskTipsUnrolled(m);
    risk := Clamp(risk);
    level := LevelOf(risk);
    if tips == [] {
      tips := tips + [GreatJobTip];
    }
  }

  // ------------------------------------------------------------------
  // Recommendation generator (backend.py:175-203)
  // ------------------------------------------------------------------

  /** The directives of the nine recommendation rules (backend.py:182-199). */
  const AttendanceDirective := "Improve attendance"
  const MarksDirective := "Focus on marks"
  const MstDirective := "Boost MST prep"
  const StudyDirective := "Increase study time"
  const AssignmentsDirective := "Complete assignments"
  const ExtracurricularsDirective := "Join activities"
  const ProjectsDirective := "Work on projects"
  const CertificationsDirective := "Earn certifications"
  const InternshipsDirective := "Pursue internships"

  /**
   * The nine recommendation rules of backend.py:182-199. They test the same
   * metrics in the same order as the risk rules, but with the looser bounds
   * marks < 70, study hours < 10 and assignments < 70.
   */
  const AttendanceRec := Rule(Below(Attendance, 75.0), AttendanceDirective)
  const MarksRec := Rule(Below(Marks, 70.0), MarksDirective)
  const MstRec := Rule(Below(MstMarks, 16.0), MstDirective)
  const StudyRec := Rule(Below(StudyHours, 10.0), StudyDirective)
  const AssignmentsRec := Rule(Below(Assignments, 70.0), AssignmentsDirective)
  const ExtracurricularsRec := Rule(Below(Extracurriculars, 2.0), ExtracurricularsDirective)
  const ProjectsRec := Rule(IsZero(Projects), ProjectsDirective)
  const CertificationsRec := Rule(IsZero(Certifications), CertificationsDirective)
  const InternshipsRec := Rule(IsZero(Internships), InternshipsDirective)

  /** The recommendation rules in the order backend.py tests them. */
  const RecommendationRules: seq<Rule<string>> := [
    AttendanceRec, MarksRec, MstRec, StudyRec, AssignmentsRec,
    ExtracurricularsRec, ProjectsRec, CertificationsRec, InternshipsRec
  ]

  /**
   * The text returned when no recommendation rule fires (backend.py:201-202),
   * written as two literals joined so that its first letter is easy to reach.
   */
  const Affirmation := "Maintain current " + "performance - you're excelling!"

  /** The separator `" | ".join(recs)` puts between directives (backend.py:203). */
  const DirectiveSeparator := " | "

  /** What `generate_recommendation` returns. */
  function Recommendation(m: MetricVector): (rec: string)
    ensures Triggered(RecommendationRules, m) == [] ==> rec == Affirmation
    ensures Triggered(RecommendationRules, m) != [] ==> Triggered(RecommendationRules, m)[0] <= rec
  {
    var recs := Triggered(RecommendationRules, m);
    if recs == [] then Affirmation else Join(recs, DirectiveSeparator)
  }

  /** The recommendation table, rule by rule, as the nine `if`s of backend.py:182-199 append to `recs`. */
  lemma RecommendationUnrolled(m: MetricVector)
    ensures Triggered(RecommendationRules, m) == Fire(AttendanceRec, m)
        + Fire(MarksRec, m)
        + Fire(MstRec, m)
        + Fire(StudyRec, m)
        + Fire(AssignmentsRec, m)
        + Fire(ExtracurricularsRec, m)
        + Fire(ProjectsRec, m)
        + Fire(CertificationsRec, m)
        + Fire(InternshipsRec, m)
  {
    TriggeredNine(AttendanceRec, MarksRec, MstRec, StudyRec, AssignmentsRec,
      ExtracurricularsRec, ProjectsRec, CertificationsRec, InternshipsRec, m);
  }

  /** `generate_recommendation`: collect the directives, then affirm or join them. */
  method GenerateRecommendation(m: MetricVector) returns (rec: string)
    ensures rec == Recommendation(m)
  {
    var recs: seq<string> := [];
    recs := ApplyRule(AttendanceRec, m, recs);
    assert recs == Fire(AttendanceRec, m);
    recs := ApplyRule(MarksRec, m, recs);
    recs := ApplyRule(MstRec, m, recs);
    recs := ApplyRule(StudyRec, m, recs);
    recs := ApplyRule(AssignmentsRec, m, recs);
    recs := ApplyRule(ExtracurricularsRec, m, recs);
    recs := ApplyRule(ProjectsRec, m, recs);
    recs := ApplyRule(CertificationsRec, m, recs);
    recs := ApplyRule(InternshipsRec, m, recs);
    RecommendationUnrolled(m);
    if recs == [] {
      return Affirmation;
    }
    rec := Join(recs, DirectiveSeparator);
  }

  // ------------------------------------------------------------------
  // Properties of the risk engine and the recommendation generator
  // ------------------------------------------------------------------

  /** The k-th tip of a list of contributions is the k-th contribution's tip. */
  lemma {:induction false} TipsOfIndex(cs: seq<Contribution>, k: nat)
    requires k < |cs|
    ensures TipsOf(cs)[k] == cs[k].tip
    decreases |cs|
  {
    if k < |cs| - 1 {
      TipsOfIndex(cs[..|cs| - 1], k);
    }
  }

  /**
   * The tips name exactly the firing risk rules, in table order; when none
   * fires they are the single fallback tip.
   */
  lemma RiskTipsInOrder(m: MetricVector)
    ensures var idx := FiredIndices(RiskRules, m);
      && (idx == [] ==> RiskTips(m) == [GreatJobTip])
      && (idx != [] ==>
            && |RiskTips(m)| == |idx|
            && forall k :: 0 <= k < |idx| ==> idx[k] < |RiskRules| && RiskTips(m)[k] == RiskRules[idx[k]].action.tip)
  {
    TriggeredInOrder(RiskRules, m);
    var fired := Triggered(RiskRules, m);
    forall k | 0 <= k < |fired|
      ensures TipsOf(fired)[k] == fired[k].tip
    {
      TipsOfIndex(fired, k);
    }
  }

  /** The fallback tip is given exactly when no risk rule fires. */
  lemma RiskFallbackIff(m: MetricVector)
    ensures RiskTips(m) == [GreatJobTip] <==> forall i :: 0 <= i < |RiskRules| ==> !Holds(RiskRules[i].cond, m)
  {
    TriggeredEmpty(RiskRules, m);
    var fired := Triggered(RiskRules, m);
    if fired != [] {
      TipsOfIndex(fired, 0);
      TriggeredSource(RiskRules, m, fired[0]);
      assert fired[0] in fired;
      assert forall i :: 0 <= i < |RiskRules| ==> |RiskRules[i].action.tip| != |GreatJobTip|;
    }
  }

  /** Probabilities are never negative, so the classifier term is not either. */
  predicate NonNegative(probMap: Option<map<string, real>>)
  {
    probMap.Some? ==> forall key :: key in probMap.value ==> probMap.value[key] >= 0.0
  }

  /** The classifier term can only raise the risk, never lower it. */
  lemma ClassifierOnlyRaisesRisk(m: MetricVector, probMap: Option<map<string, real>>)
    requires NonNegative(probMap)
    ensures ProbabilityTerm(probMap) >= 0.0
    ensures RiskScore(m, probMap) >= RiskScore(m, None)
  {
    if probMap.Some? && probMap.value != map[] {
      assert Get(probMap.value, "D") >= 0.0 && Get(probMap.value, "C") >= 0.0;
    }
  }

  /**
   * When all nine risk rules fire their weights sum to 1.20, so the clamped
   * score is 1.0 and the level is High whatever the (non-negative)
   * classifier probabilities are.
   */
  lemma AllRiskRulesFire(m: MetricVector, probMap: Option<map<string, real>>)
    requires forall i :: 0 <= i < |RiskRules| ==> Holds(RiskRules[i].cond, m)
    requires NonNegative(probMap)
    ensures TotalWeight(Triggered(RiskRules, m)) == 1.20
    ensures RiskScore(m, probMap) == 1.0
    ensures LevelOf(RiskScore(m, probMap)) == "High"
  {
    assert Holds(RiskRules[0].cond, m) && Holds(RiskRules[1].cond, m) && Holds(RiskRules[2].cond, m);
    assert Holds(RiskRules[3].cond, m) && Holds(RiskRules[4].cond, m) && Holds(RiskRules[5].cond, m);
    assert Holds(RiskRules[6].cond, m) && Holds(RiskRules[7].cond, m) && Holds(RiskRules[8].cond, m);
    RiskWeightUnrolled(m);
    ClassifierOnlyRaisesRisk(m, probMap);
  }

  /**
   * A student no rule flags still gets risk 1.0 and level High when the
   * classifier is certain of grade D: the rule-based part of the score alone
   * does not bound the level.
   */
  lemma NoRuleFiresYetHighRisk()
    ensures var m := MetricVector(90.0, 90.0, 30.0, 20.0, 90.0, 5.0, 2, 2, 1);
      var probMap := Some(map["D" := 1.0]);
      && RiskTips(m) == [GreatJobTip]
      && RiskScore(m, probMap) == 1.0
      && LevelOf(RiskScore(m, probMap)) == "High"
  {
    var m := MetricVector(90.0, 90.0, 30.0, 20.0, 90.0, 5.0, 2, 2, 1);
    HealthyStudentFiresNothing();
    var probs := map["D" := 1.0];
    assert "D" in probs && "C" !in probs;
  }

  /** The student of `NoRuleFiresYetHighRisk` is clear of every risk bound. */
  lemma HealthyStudentFiresNothing()
    ensures Triggered(RiskRules, MetricVector(90.0, 90.0, 30.0, 20.0, 90.0, 5.0, 2, 2, 1)) == []
  {
    TriggeredEmpty(RiskRules, MetricVector(90.0, 90.0, 30.0, 20.0, 90.0, 5.0, 2, 2, 1));
  }

  /**
   * Every risk bound is strict: a student exactly on every risk threshold
   * fires no risk rule, so gets risk 0, level Low and the fallback tip.
   */
  lemma RiskThresholdsAreStrict()
    ensures var m := MetricVector(75.0, 60.0, 16.0, 8.0, 60.0, 2.0, 1, 1, 1);
      && RiskScore(m, None) == 0.0
      && LevelOf(RiskScore(m, None)) == "Low"
      && RiskTips(m) == [GreatJobTip]
  {
    var m := MetricVector(75.0, 60.0, 16.0, 8.0, 60.0, 2.0, 1, 1, 1);
    RiskWeightUnrolled(m);
    RiskTipsUnrolled(m);
  }

  /**
   * The same student is below three of the looser recommendation bounds
   * (marks < 70, study hours < 10, assignments < 70), so is told exactly those.
   */
  lemma RecommendationBeyondRiskThresholds()
    ensures var m := MetricVector(75.0, 60.0, 16.0, 8.0, 60.0, 2.0, 1, 1, 1);
      Recommendation(m) == Join([MarksDirective, StudyDirective, AssignmentsDirective], DirectiveSeparator)
  {
    var m := MetricVector(75.0, 60.0, 16.0, 8.0, 60.0, 2.0, 1, 1, 1);
    RecommendationUnrolled(m);
    assert Triggered(RecommendationRules, m) == [MarksDirective, StudyDirective, AssignmentsDirective];
    assert Triggered(RecommendationRules, m) != [];
  }

  /**
   * Each recommendation bound is at least as loose as the matching risk
   * bound, so a student who gets the affirmation fires no risk rule either.
   */
  lemma RiskRuleImpliesRecommendationRule(m: MetricVector)
    ensures forall i :: 0 <= i < |RiskRules| ==> Holds(RiskRules[i].cond, m) ==> Holds(RecommendationRules[i].cond, m)
    ensures Recommendation(m) == Affirmation ==> RiskTips(m) == [GreatJobTip]
  {
    assert |RiskRules| == |RecommendationRules| == 9;
    if Recommendation(m) == Affirmation {
      AffirmationIff(m);
      RiskFallbackIff(m);
    }
  }

  /** The affirmation begins with a letter no directive begins with. */
  lemma AffirmationStart()
    ensures |Affirmation| > 0 && Affirmation[0] == 'M'
  {
    assert "Maintain current "[0] == 'M';
  }

  /** The affirmation is returned exactly when no recommendation rule fires. */
  lemma AffirmationIff(m: MetricVector)
    ensures Recommendation(m) == Affirmation <==> forall i :: 0 <= i < |RecommendationRules| ==> !Holds(RecommendationRules[i].cond, m)
  {
    TriggeredEmpty(RecommendationRules, m);
    var recs := Triggered(RecommendationRules, m);
    if recs != [] {
      TriggeredSource(RecommendationRules, m, recs[0]);
      assert recs[0] in recs;
      AffirmationStart();
      assert AttendanceDirective[0] == 'I' && MarksDirective[0] == 'F' && MstDirective[0] == 'B';
      assert StudyDirective[0] == 'I' && AssignmentsDirective[0] == 'C' && ExtracurricularsDirective[0] == 'J';
      assert ProjectsDirective[0] == 'W' && CertificationsDirective[0] == 'E' && InternshipsDirective[0] == 'P';
    }
  }

  /** When every recommendation rule fires, all nine directives are joined, in table order. */
  lemma AllRecommendations(m: MetricVector)
    requires forall i :: 0 <= i < |RecommendationRules| ==> Holds(RecommendationRules[i].cond, m)
    ensures Recommendation(m) == Join([AttendanceDirective, MarksDirective, MstDirective, StudyDirective, AssignmentsDirective,
      ExtracurricularsDirective, ProjectsDirective, CertificationsDirective, InternshipsDirective], DirectiveSeparator)
  {
    assert Holds(RecommendationRules[0].cond, m) && Holds(RecommendationRules[1].cond, m) && Holds(RecommendationRules[2].cond, m);
    assert Holds(RecommendationRules[3].cond, m) && Holds(RecommendationRules[4].cond, m) && Holds(RecommendationRules[5].cond, m);
    assert Holds(RecommendationRules[6].cond, m) && Holds(RecommendationRules[7].cond, m) && Holds(RecommendationRules[8].cond, m);
    RecommendationUnrolled(m);
    assert Triggered(RecommendationRules, m) == [AttendanceDirective] + [MarksDirective] + [MstDirective] + [StudyDirective]
      + [AssignmentsDirective] + [ExtracurricularsDirective] + [ProjectsDirective] + [CertificationsDirective] + [InternshipsDirective];
    assert Triggered(RecommendationRules, m) == [AttendanceDirective, MarksDirective, MstDirective, StudyDirective, AssignmentsDirective,
      ExtracurricularsDirective, ProjectsDirective, CertificationsDirective, InternshipsDirective];
    assert Triggered(RecommendationRules, m) != [];
  }
}
