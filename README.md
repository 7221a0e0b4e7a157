# EduTrack decision layer in Dafny

EduTrack is a Streamlit application in which teachers record student metrics:
- attendance, marks and MST marks;
- study hours and assignments;
- extracurriculars, projects, certifications and internships.

From these metrics it predicts a grade (A–D) with a random forest, scores academic risk (Low/Medium/High) and gives tips and a recommendation. This project models EduTrack's deterministic decision layer and proves its properties:

- **Risk engine** (`calculate_risk`). Nine threshold rules each add a weight and a tip. An optional classifier term P(D)·1.0 + P(C)·0.5 is added. The total is clamped to [0,1] and mapped to a level with the cut-points 0.4 and 0.7. A fallback tip is given when no rule fires.
- **Recommendation generator** (`generate_recommendation`). A second nine-rule table whose directives are joined by `" | "`. When no rule fires it returns a fixed affirmation.
- **Grade labelling.** The 85/70/55 label thresholds of the synthetic training set.
- **`predict_grade`.** The MST normalisation, the argmax label and the class-to-probability map. The classifier is a function parameter.
- **Colour lookups.** The grade and risk colour tables.
- **Student dashboard.** The tip list (a third rule table, shown capped at five entries) and the class analytics risk buckets, including the "High Risk" metric.
- **Input validators.** `validate_email`, `validate_roll_number` and the emoji lookups.

### Modules

- `Rules` (rules.dfy) turns each nine-`if` chain into a table of `Rule`s. `Triggered` is the list such a chain builds, and its lemmas state the facts about it: order, exactly-one-entry-per-firing-rule, and the iff between no entries and no firing rule.
- `CalculateRisk`, `GenerateRecommendation` and `Dashboard.ShownTips` keep the source's imperative form. Each is a method that updates an accumulator and appends to a list rule by rule, with each `if` a call to `ApplyRiskRule` or `Rules.ApplyRule`. Each is proved equal to the function over its table (`RiskScore`, `RiskTips`, `Recommendation`, `Take(DashboardTips(m), 5)`). The lemmas then state the properties of those functions.
- `Text` (text.dfy) models Python's `str.join` and `str.split`. `Split` keeps empty parts, and `JoinSplit` and `SplitJoin` prove that the two are inverses.
- `Metrics` (metrics.dfy) holds the nine inputs as `MetricVector`. `Wrappers` holds `Option`, which stands for Python's `None`.

Python floats are modelled as exact reals.

A student who fires no rule can still be High risk: the classifier term alone reaches 1.0 (`Backend.NoRuleFiresYetHighRisk`).

## Model

| member | source | states |
|---|---|---|
| Backend.CalculateRisk | backend.py:124-173 | returns exactly the clamped score `RiskScore`, the level `LevelOf(risk)` of that score and the tip list `RiskTips` (one tip per firing rule, in order, or the fallback) |
| Backend.ApplyRiskRule | backend.py:138-165 | one `if` of the risk chain: adds the rule's weight and appends its tip exactly when the rule's condition holds |
| Backend.Get | backend.py:135-136 | `prob_map.get(key, 0.0)`: the stored probability for a present key, 0 for a missing one |
| Backend.ProbabilityTerm | backend.py:134-136 | the classifier term is 0 for `None` or an empty map; otherwise P(D) + 0.5·P(C) with a missing "D" or "C" counted as 0, case by case (both, only D, only C, neither) |
| Backend.ClassifierOnlyRaisesRisk | backend.py:134-136 | with non-negative probabilities the classifier term is ≥ 0, so the score is never below the score without a map |
| Backend.Clamp | backend.py:167 | `min(max(x,0),1)` lies in [0,1], leaves values in [0,1] unchanged, sends negatives to 0 and values above 1 to 1 |
| Backend.RiskScore | backend.py:131-167 | the risk score lies in [0,1] whatever the rules and the map |
| Backend.LevelOf | backend.py:168 | Low iff risk < 0.4, Medium iff 0.4 ≤ risk < 0.7, High iff risk ≥ 0.7 |
| Backend.LevelMonotone | backend.py:168 | a higher risk never gives a lower level |
| Backend.RiskTips | backend.py:170-171 | the tip list is never empty |
| Backend.RiskTipsInOrder | backend.py:138-171 | with no firing rule the tips are exactly the fallback; otherwise there is one tip per firing rule, in table order, each the tip of its rule |
| Backend.RiskFallbackIff | backend.py:170-171 | the tips are exactly the "Great job!" tip iff no risk rule fires |
| Backend.RiskWeightUnrolled | backend.py:138-165 | the table's total weight is the sum of the nine rules' contributions in source order |
| Backend.RiskTipsUnrolled | backend.py:138-165 | the table's tips are the concatenation of the nine rules' tips in source order |
| Backend.AllRiskRulesFire | backend.py:138-168 | when all nine rules fire, the weights sum to 1.20, the score is 1.0 and the level is High for any non-negative map |
| Backend.NoRuleFiresYetHighRisk | backend.py:134-171 | a student who fires no rule, with a map certain of D, gets the fallback tip, score 1.0 and level High |
| Backend.RiskThresholdsAreStrict | backend.py:138-171 | a student exactly on every risk bound fires nothing: score 0, Low, fallback tip |
| Backend.ExtendWeight | backend.py:138-165 | running rule k after the first k rules adds exactly what rule k fires to the weight |
| Backend.ExtendTips | backend.py:138-165 | running rule k after the first k rules appends exactly what rule k fires to the tips |
| Backend.WeightUpToIsTriggered | backend.py:138-165 | adding weights rule by rule over the first k rules equals the weight of the rules fired among them |
| Backend.TipsUpToIsTriggered | backend.py:138-165 | appending tips rule by rule over the first k rules equals the tips of the rules fired among them |
| Backend.TipsOfIndex | backend.py:138-165 | the k-th tip of a contribution list is the tip of its k-th entry |
| Backend.HealthyStudentFiresNothing | backend.py:138-165 | the student (90, 90, 30, 20, 90, 5, 2, 2, 1) triggers no risk rule |
| Backend.GenerateRecommendation | backend.py:175-203 | returns exactly `Recommendation(m)`: the affirmation when no rule fires, else the fired directives joined by the bar separator |
| Backend.Recommendation | backend.py:181-203 | returns the affirmation when no rule fires; otherwise the result starts with the first fired directive |
| Backend.RecommendationUnrolled | backend.py:182-199 | the fired directives are the nine rules' contributions concatenated in source order |
| Backend.AffirmationStart | backend.py:202 | the affirmation is non-empty and starts with "M" |
| Backend.AffirmationIff | backend.py:201-203 | the affirmation is returned iff none of the nine recommendation rules fires |
| Backend.AllRecommendations | backend.py:181-203 | when all nine rules fire, the result is the nine directives joined by the bar separator in source order |
| Backend.RecommendationBeyondRiskThresholds | backend.py:138-203 | a student on every risk bound (and so risk-free) is still told exactly the marks, study-time and assignments directives, joined: the two tables disagree |
| Backend.RiskRuleImpliesRecommendationRule | backend.py:138-199 | every risk rule that fires implies the matching recommendation rule fires, so a student given the affirmation gets the fallback risk tip |
| Grading.SyntheticScore | backend.py:27-37 | the weighted synthetic score of a row with every metric between 0 and its scale maximum lies in [0,100] |
| Grading.SyntheticScoreTop | backend.py:27-37 | the weights sum to 1: a row at every scale maximum scores exactly 100 |
| Grading.ClipScore | backend.py:39 | `np.clip(x, 0, 100)` lies in [0,100], leaves in-range values alone and sends out-of-range values to the nearer end |
| Grading.MaskedLabel | backend.py:41-45 | the four masked assignments always leave a label, with A iff ≥ 85, B iff 70–85, C iff 55–70, D iff < 55 |
| Grading.GradeLabel | backend.py:41-45 | every score gets exactly one of A/B/C/D, by the same four iffs |
| Grading.GradeLabelMonotone | backend.py:41-45 | a higher score never gives a worse grade |
| Grading.NormalizeMst | backend.py:115 | `mst/40*100` scales by 100/40, maps [0,40] into [0,100] and 40 to 100 |
| Grading.Features | backend.py:116-117 | the feature row has the nine metrics in source order, with the normalised MST in third place |
| Grading.ArgMax | backend.py:119 | returns an index of a maximal probability, and the first such index (as `np.argmax` does) |
| Grading.ZipMap | backend.py:121 | the probability map's keys are exactly the class list |
| Grading.ZipMapLast | backend.py:121 | a class's entry is the probability at its last position (a later duplicate key wins) |
| Grading.PredictGrade | backend.py:103-122 | the label is the class at the argmax index of the classifier's probabilities on the normalised features, and the map is keyed by exactly the classes |
| Grading.PredictedLabelIsMostLikely | backend.py:118-122 | with distinct classes, each class maps to its own probability and the predicted label has the largest probability in the map |
| Grading.PredictionFeedsRisk | backend.py:121-136 | with classes A–D, the risk engine's classifier term on the predicted map is P(D)·1.0 + P(C)·0.5 |
| Grading.GradeColor | backend.py:207-210 | A/B/C/D get their fixed colours; the grey default is returned iff the grade is unknown |
| Grading.RiskColor | backend.py:212-215 | Low/Medium/High get their fixed colours; the grey default is returned iff the level is unknown |
| Grading.ColorsCoverOutputs | backend.py:207-215 | every label and level the model produces has its own colour (never the default) |
| Dashboard.DashboardTips | app.py:209-230 | the tip list is never empty: the fired hints when any rule fires, else exactly the "Maintain current habits" hint |
| Dashboard.DashboardUnrolled | app.py:209-227 | the fired hints are the nine rules' contributions concatenated in source order |
| Dashboard.ShownTips | app.py:209-233 | the tips shown are exactly the first five (or fewer) of the dashboard tip list |
| Dashboard.Take | app.py:232 | `tips[:n]` has length min(len, n) and is a prefix of the list |
| Dashboard.ShownTipsBounds | app.py:229-233 | between one and five tips are shown, they are a prefix of the full list, and all are shown when there are at most five |
| Dashboard.DashboardMatchesRisk | app.py:209-230 | the dashboard rules fire at exactly the same positions as the risk rules of backend.py:138-165, give as many tips, and fall back together |
| Dashboard.CountBelow | app.py:672 | the records below a bound and those at or above it together are all the records |
| Dashboard.CountBetween | app.py:673 | the records in [lo, hi) are those below hi less those below lo |
| Dashboard.CountAtLeast | app.py:674 | the records at or above a bound are at most all the records |
| Dashboard.Distribution | app.py:671-675 | the Low, Medium and High counts add up to the number of records |
| Dashboard.HighRiskCount | app.py:646 | the "High Risk" metric counts every record not below 0.7 |
| Dashboard.DistributionMatchesLevels | app.py:671-675 | each bucket counts exactly the records to which `calculate_risk` (backend.py:168) would give that level |
| Dashboard.HighRiskIsHighBar | app.py:646 | the "High Risk" metric equals the High bucket and is at most the number of records |
| Rules.Triggered | backend.py:138-165 | a chain of rules emits at most one entry per rule |
| Rules.TriggeredInOrder | backend.py:138-165 | a rule contributes iff its condition holds, each firing rule contributes exactly one entry, and entries appear in table order |
| Rules.TriggeredEmpty | backend.py:170 | no entry iff no condition holds |
| Rules.TriggeredSource | backend.py:138-165 | every emitted entry comes from a rule whose condition holds |
| Rules.TriggeredSnoc | backend.py:182-199 | a table with one more rule at its end fires what the table fires, then what that rule fires |
| Rules.TriggeredNine | app.py:209-227 | a nine-rule chain emits, in order, exactly what each of its nine `if`s appends |
| Rules.TriggeredStep | backend.py:138-165 | running one more rule appends what that rule fires |
| Rules.SameConditionsSameFiring | app.py:209-227 | two tables with the same conditions fire at the same positions and emit as many entries |
| Rules.ApplyRule | backend.py:182-199 | one `if` of a chain: appends the rule's action exactly when its condition holds |
| Text.Join | backend.py:203 | the joined string starts with the first part |
| Text.JoinLength | backend.py:203 | `sep.join(parts)` has the parts' total length plus one separator between each pair |
| Text.Split | utils.py:6 | `split` gives at least one part, no part contains the separator, and more than one part iff the separator occurs |
| Text.JoinSplit | utils.py:6 | joining the split parts with the separator gives back the string |
| Text.SplitJoin | utils.py:6 | splitting a join of separator-free parts gives back the parts |
| Text.IndexOf | utils.py:6 | the first occurrence of a character: it is there and not earlier |
| Text.IndexOfUnique | utils.py:6 | a character with none of its kind before it is the first occurrence |
| Text.IndexOfAtLeast | utils.py:6 | a prefix free of the character puts its first occurrence at or after the prefix end |
| Utils.ValidateEmail | utils.py:4-6 | an accepted address contains `@` (and, by short-circuit, the split is only indexed when it does) |
| Utils.SecondPart | utils.py:6 | `split("@")[1]` is the run between the first `@` and the second (or the end) |
| Utils.AcceptedHasDot | utils.py:6 | an accepted address has a `.` after its first `@` and before any second `@` |
| Utils.DotIsAccepted | utils.py:6 | such a `.` makes the address accepted |
| Utils.ValidateEmailIff | utils.py:6 | accepted iff there is a `.` after the first `@` and before any second `@` |
| Utils.ValidateEmailAcceptsPlainAddress | utils.py:6 | "a@b.c" is accepted |
| Utils.ValidateEmailAcceptsBareParts | utils.py:6 | "@x.y" and "a@b." are accepted: neither the local part nor the text after the dot is checked |
| Utils.ValidateEmailRejectsDotAfterSecondAt | utils.py:6 | "a@b@c.d" is rejected: the dot lies beyond the second `@` |
| Utils.ValidateEmailRejectsDotBeforeAt | utils.py:6 | "a.b@c" and "ab.c" are rejected |
| Utils.ValidateRollNumber | utils.py:8-10 | accepted iff 1 ≤ length ≤ 20 |
| Utils.ValidateRollNumberExamples | utils.py:10 | any characters pass, including spaces; 20 characters pass, 21 and the empty string do not |
| Utils.GradeEmoji | utils.py:26-29 | A/B/C/D get their fixed strings; the default string is returned iff the grade is unknown |
| Utils.RiskEmoji | utils.py:31-34 | Low/Medium/High get their fixed strings; the default string is returned iff the level is unknown |
| Utils.EmojisDistinguishOutputs | utils.py:26-34 | every label and level the model produces gets a non-default string, and no two labels (or levels) share one |

## Left out

- Random-forest training and inference (backend.py:61-66, 118). The classifier is a parameter `predictProba: seq<real> -> seq<real>`, and the class list is a parameter too.
- The random sampling and Gaussian noise of the synthetic data set (backend.py:14-38). Only the weighted score, the clipping and the label thresholds are modelled.
- `_ensure_model` (backend.py:52-66). Its model cache, joblib file I/O and unguarded lazy initialisation are I/O and global state.
- Authentication (backend.py:70-99). It depends on bcrypt and the database.
- database.py is not part of this model: it is SQLite plumbing whose constraints live in SQL.
- pdf_report.py, ml_model.py and cleanup_and_setup.py are not part of this model: they are report layout, display duplicates and a file-deletion script.
- Everything else in app.py is left out (widgets, session state, charts, and how the stored recommendation is displayed). The app.py tip list and the risk buckets are lifted out as functions of a metric vector and of a sequence of risk scores.
- `format_metrics_table` (utils.py:12-24) is left out: it is float-to-string formatting.
- Python floats are modelled as exact reals; IEEE-754 rounding is not modelled. This changes the level in three concrete cases. The risk weights accumulated left to right in doubles give 0.39999999999999997, which the source rates "Low", where the model's exact sum is 0.4, rated "Medium". That happens for these rule sets (with no classifier map):
  - attendance + assignments + extracurriculars;
  - MST + assignments + extracurriculars;
  - marks + study hours + extracurriculars.
- Backend.CalculateRisk: each of the nine `if`s is a call to `ApplyRiskRule` rather than written inline. The comparisons, weights, tips and order are the source's; only the statement layout differs.
- Backend.GenerateRecommendation: likewise, each `if` is a call to `Rules.ApplyRule`.
- Dashboard.ShownTips: likewise, each `if` is a call to `Rules.ApplyRule`. The model returns the shown tips; it does not write them to the page.
- Utils.GradeEmoji: the emoji literals in utils.py are stored double-encoded, so the model returns the mis-decoded characters the source actually contains. Utils.RiskEmoji does the same.
