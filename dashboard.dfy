/**
 * app.py, the two computations behind the dashboards:
 *
 *  - the student dashboard's "How to Reduce Risk" list (app.py:209-233):
 *    nine threshold tests on the latest record, a fallback tip, and at most
 *    five tips shown;
 *  - the teacher dashboard's High Risk metric and risk distribution
 *    (app.py:646, app.py:671-675), over the stored risk scores of a class.
 *
 * The rendering itself (`st.write`, charts) is not modelled; the methods
 * return what is written.
 */
module Dashboard {
  import opened Metrics
  import opened Rules
  import Backend

  // ------------------------------------------------------------------
  // Student dashboard tips (app.py:209-233)
  // ------------------------------------------------------------------

  /** The nine dashboard tips of app.py:210-227, each starting with a bullet. */
  const AttendanceHint := "\U{2022} Maintain attendance above 75%"
  const MarksHint := "\U{2022} Focus on stronger study habits to improve marks"
  const MstHint := "\U{2022} Schedule regular MST revision sessions"
  const StudyHint := "\U{2022} Increase study hours to at least 8-12 per week"
  const AssignmentsHint := "\U{2022} Complete all assignments on time"
  const ExtracurricularsHint := "\U{2022} Participate in extracurricular activities"
  const ProjectsHint := "\U{2022} Work on at least one project"
  const CertificationsHint := "\U{2022} Pursue certifications in your field"
  const InternshipsHint := "\U{2022} Look for internship opportunities"

  /** The dashboard rules of app.py:209-227: the risk engine's bounds, with their own texts. */
  const AttendanceHintRule := Rule(Below(Attendance, 75.0), AttendanceHint)
  const MarksHintRule := Rule(Below(Marks, 60.0), MarksHint)
  const MstHintRule := Rule(Below(MstMarks, 16.0), MstHint)
  const StudyHintRule := Rule(Below(StudyHours, 8.0), StudyHint)
  const AssignmentsHintRule := Rule(Below(Assignments, 60.0), AssignmentsHint)
  const ExtracurricularsHintRule := Rule(Below(Extracurriculars, 2.0), ExtracurricularsHint)
  const ProjectsHintRule := Rule(IsZero(Projects), ProjectsHint)
  const CertificationsHintRule := Rule(IsZero(Certifications), CertificationsHint)
  const InternshipsHintRule := Rule(IsZero(Internships), InternshipsHint)

  /** The dashboard rules in the order app.py tests them. */
  const DashboardRules: seq<Rule<string>> := [
    AttendanceHintRule, MarksHintRule, MstHintRule, StudyHintRule, AssignmentsHintRule,
    ExtracurricularsHintRule, ProjectsHintRule, CertificationsHintRule, InternshipsHintRule
  ]

  /** The tip shown when no dashboard rule fires (app.py:229-230). */
  const MaintainHint := "\U{2705} Maintain current habits and review weekly to keep risk low"

  /** How many tips the dashboard writes at most (`tips[:5]`, app.py:232). */
  const MaxShown := 5

  /** The whole tip list the dashboard builds, before truncation. */
  function DashboardTips(m: MetricVector): (tips: seq<string>)
    ensures tips != []
    ensures Triggered(DashboardRules, m) == [] ==> tips == [MaintainHint]
    ensures Triggered(DashboardRules, m) != [] ==> tips == Triggered(DashboardRules, m)
  {
    var fired := Triggered(DashboardRules, m);
    if fired == [] then [MaintainHint] else fired
  }

  /** `tips[:5]`: Python slicing past the end just stops at the end. */
  function Take(tips: seq<string>, n: nat): (shown: seq<string>)
    ensures |shown| == if |tips| < n then |tips| else n
    ensures shown <= tips
  {
    if |tips| < n then tips else tips[..n]
  }

  /** The dashboard table, rule by rule, as the nine `if`s of app.py:209-227 append to `tips`. */
  lemma DashboardUnrolled(m: MetricVector)
    ensures Triggered(DashboardRules, m) == Fire(AttendanceHintRule, m)
        + Fire(MarksHintRule, m)
        + Fire(MstHintRule, m)
        + Fire(StudyHintRule, m)
        + Fire(AssignmentsHintRule, m)
        + Fire(ExtracurricularsHintRule, m)
        + Fire(ProjectsHintRule, m)
        + Fire(CertificationsHintRule, m)
        + Fire(InternshipsHintRule, m)
  {
    TriggeredNine(AttendanceHintRule, MarksHintRule, MstHintRule, StudyHintRule, AssignmentsHintRule,
      ExtracurricularsHintRule, ProjectsHintRule, CertificationsHintRule, InternshipsHintRule, m);
  }

  /**
   * The "How to Reduce Risk" section: build the tips on the latest record,
   * fall back to the maintain tip, and return the at most five tips written.
   */
  method ShownTips(m: MetricVector) returns (shown: seq<string>)
    ensures shown == Take(DashboardTips(m), MaxShown)
  {
    var tips: seq<string> := [];
    tips := ApplyRule(AttendanceHintRule, m, tips);
    assert tips == Fire(AttendanceHintRule, m);
    tips := ApplyRule(MarksHintRule, m, tips);
    tips := ApplyRule(MstHintRule, m, tips);
    tips := ApplyRule(StudyHintRule, m, tips);
    tips := ApplyRule(AssignmentsHintRule, m, tips);
    tips := ApplyRule(ExtracurricularsHintRule, m, tips);
    tips := ApplyRule(ProjectsHintRule, m, tips);
    tips := ApplyRule(CertificationsHintRule, m, tips);
    tips := ApplyRule(InternshipsHintRule, m, tips);
    DashboardUnrolled(m);
    if tips == [] {
      tips := tips + [MaintainHint];
    }
    shown := if |tips| < MaxShown then tips else tips[..MaxShown];
  }

  /**
   * What the dashboard shows: between one and five tips, the first ones of
   * the full list, and all of it when it has at most five.
   */
  lemma ShownTipsBounds(m: MetricVector)
    ensures var full := DashboardTips(m);
      var shown := Take(full, MaxShown);
      && 1 <= |shown| <= MaxShown
      && shown <= full
      && (|full| <= MaxShown ==> shown == full)
  {
    var full := DashboardTips(m);
    assert |full| >= 1;
  }

  /**
   * The dashboard tests exactly the risk engine's bounds: its rules fire at
   * the same positions, it shows a tip per firing risk rule (up to five),
   * and it falls back exactly when the risk engine does.
   */
  lemma DashboardMatchesRisk(m: MetricVector)
    ensures FiredIndices(DashboardRules, m) == FiredIndices(Backend.RiskRules, m)
    ensures |Triggered(DashboardRules, m)| == |Triggered(Backend.RiskRules, m)|
    ensures DashboardTips(m) == [MaintainHint] <==> Backend.RiskTips(m) == [Backend.GreatJobTip]
  {
    assert |DashboardRules| == |Backend.RiskRules| == 9;
    assert forall i :: 0 <= i < 9 ==> DashboardRules[i].cond == Backend.RiskRules[i].cond;
    SameConditionsSameFiring(DashboardRules, Backend.RiskRules, m);
    TriggeredEmpty(DashboardRules, m);
    TriggeredEmpty(Backend.RiskRules, m);
    Backend.RiskFallbackIff(m);
    var fired := Triggered(DashboardRules, m);
    if fired != [] {
      TriggeredSource(DashboardRules, m, fired[0]);
      assert fired[0] in fired;
      assert forall i :: 0 <= i < |DashboardRules| ==> |DashboardRules[i].action| != |MaintainHint|;
    }
  }

  // ------------------------------------------------------------------
  // Teacher dashboard: High Risk metric and risk distribution
  // (app.py:646, app.py:671-675)
  // ------------------------------------------------------------------

  /** `len(df[df['risk_score'] < hi])`. */
  function CountBelow(scores: seq<real>, hi: real): (n: nat)
    ensures n + CountAtLeast(scores, hi) == |scores|
  {
    if scores == [] then 0
    else CountBelow(scores[..|scores| - 1], hi) + (if scores[|scores| - 1] < hi then 1 else 0)
  }

  /** `len(df[(df['risk_score'] >= lo) & (df['risk_score'] < hi)])`. */
  function CountBetween(scores: seq<real>, lo: real, hi: real): (n: nat)
    ensures lo <= hi ==> CountBelow(scores, lo) + n == CountBelow(scores, hi)
  {
    if scores == [] then 0
    else CountBetween(scores[..|scores| - 1], lo, hi) + (if lo <= scores[|scores| - 1] < hi then 1 else 0)
  }

  /** `len(df[df['risk_score'] >= lo])`. */
  function CountAtLeast(scores: seq<real>, lo: real): (n: nat)
    ensures n <= |scores|
  {
    if scores == [] then 0
    else CountAtLeast(scores[..|scores| - 1], lo) + (if scores[|scores| - 1] >= lo then 1 else 0)
  }

  /** The number of scores the risk engine puts at a given level. */
  function CountLevel(scores: seq<real>, level: string): nat
  {
    if scores == [] then 0
    else CountLevel(scores[..|scores| - 1], level) + (if Backend.LevelOf(scores[|scores| - 1]) == level then 1 else 0)
  }

  /** The bar heights of the "Risk Distribution" chart (app.py:671-675). */
  datatype RiskDistribution = RiskDistribution(low: nat, medium: nat, high: nat)

  /** Every record falls in exactly one bar: the three bars add up to the class size. */
  function Distribution(scores: seq<real>): (d: RiskDistribution)
    ensures d.low + d.medium + d.high == |scores|
  {
    RiskDistribution(CountBelow(scores, 0.4), CountBetween(scores, 0.4, 0.7), CountAtLeast(scores, 0.7))
  }

  /** The "High Risk" metric (app.py:646). */
  function HighRiskCount(scores: seq<real>): (n: nat)
    ensures n == |scores| - CountBelow(scores, 0.7)
  {
    CountAtLeast(scores, 0.7)
  }

  /** Each bar counts exactly the records the risk engine labels with that level. */
  lemma {:induction false} DistributionMatchesLevels(scores: seq<real>)
    ensures Distribution(scores) == RiskDistribution(CountLevel(scores, "Low"), CountLevel(scores, "Medium"), CountLevel(scores, "High"))
  {
    if scores != [] {
      DistributionMatchesLevels(scores[..|scores| - 1]);
    }
  }

  /** The High Risk metric is the High bar, and counts the records at level High. */
  lemma HighRiskIsHighBar(scores: seq<real>)
    ensures HighRiskCount(scores) == Distribution(scores).high == CountLevel(scores, "High")
    ensures HighRiskCount(scores) <= |scores|
  {
    DistributionMatchesLevels(scores);
  }
}
