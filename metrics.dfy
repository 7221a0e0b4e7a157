/**
 * The nine-field metric vector that the grade predictor, the risk engine,
 * the recommendation generator and the student dashboard all consume
 * (backend.py:103-106, 124-128, 175-178).
 *
 * Python passes the first six metrics as `float` and the last three as
 * `int`; here they are `real` and `int`. Reals are exact: IEEE-754 rounding
 * (for instance at the 0.4 / 0.7 risk cut-points) is not modelled.
 */
module Metrics {
  datatype MetricVector = MetricVector(
    attendance: real,        // percentage
    marks: real,             // percentage
    mstMarks: real,          // mid-semester test, raw score out of 40
    studyHours: real,        // hours per week
    assignments: real,       // percentage
    extracurriculars: real,  // activity score 0..10
    projects: int,
    certifications: int,
    internships: int)

  /** Names the nine fields, so that rule tables can refer to them. */
  datatype Field =
    | Attendance | Marks | MstMarks | StudyHours | Assignments
    | Extracurriculars | Projects | Certifications | Internships

  /** The value of one field, with the integer counts read as reals. */
  function Value(m: MetricVector, f: Field): real
  {
    match f
    case Attendance => m.attendance
    case Marks => m.marks
    case MstMarks => m.mstMarks
    case StudyHours => m.studyHours
    case Assignments => m.assignments
    case Extracurriculars => m.extracurriculars
    case Projects => m.projects as real
    case Certifications => m.certifications as real
    case Internships => m.internships as real
  }
}
