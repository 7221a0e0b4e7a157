/**
 * utils.py: input validation and the emoji lookups.
 *
 * The emoji literals in utils.py:26-34 are stored double-encoded (their
 * UTF-8 bytes re-read as Windows-1252), so the strings the functions
 * return are those mis-decoded characters, not the emoji themselves; the
 * model keeps the characters the source actually contains.
 */
module Utils {
  import opened Text
  import Grading
  import Backend

  // ------------------------------------------------------------------
  // validate_email / validate_roll_number (utils.py:4-10)
  // ------------------------------------------------------------------

  /** `"@" in email and "." in email.split("@")[1]`; the split is only reached when an `@` exists. */
  function ValidateEmail(email: string): (ok: bool)
    ensures ok ==> '@' in email
  {
    '@' in email && '.' in Split(email, '@')[1]
  }

  /** The second part of `s.split(c)` is the run between the first and the second `c`. */
  lemma SecondPart(s: string, c: char)
    requires c in s
    ensures var i := IndexOf(s, c);
      var rest := s[i + 1..];
      Split(s, c)[1] == if c in rest then rest[..IndexOf(rest, c)] else rest
  {
  }

  /** There is a `.` after the first `@` and before any second `@`. */
  ghost predicate DotAfterFirstAt(email: string)
  {
    exists i, j :: 0 <= i < j < |email| && email[i] == '@' && '@' !in email[..i]
      && email[j] == '.' && '@' !in email[i + 1..j]
  }

  lemma AcceptedHasDot(email: string)
    requires ValidateEmail(email)
    ensures DotAfterFirstAt(email)
  {
    var i := IndexOf(email, '@');
    var rest := email[i + 1..];
    SecondPart(email, '@');
    var part := Split(email, '@')[1];
    var k :| 0 <= k < |part| && part[k] == '.';
    assert part == rest[..|part|];
    assert email[i + 1..i + 1 + k] == part[..k];
    assert '@' !in part;
    assert email[i + 1 + k] == '.';
  }

  lemma DotIsAccepted(email: string, i: nat, j: nat)
    requires 0 <= i < j < |email| && email[i] == '@' && '@' !in email[..i]
    requires email[j] == '.' && '@' !in email[i + 1..j]
    ensures ValidateEmail(email)
  {
    IndexOfUnique(email, '@', i);
    var rest := email[i + 1..];
    SecondPart(email, '@');
    var k := j - i - 1;
    assert rest[..k] == email[i + 1..j];
    assert rest[k] == '.';
    if '@' in rest {
      IndexOfAtLeast(rest, '@', k);
      assert rest[..IndexOf(rest, '@')][k] == '.';
    }
  }

  /**
   * An address is accepted exactly when it has an `@` and a `.` somewhere
   * after the first `@` and before any second `@`. Nothing is required
   * before the `@` or after the `.`.
   */
  lemma ValidateEmailIff(email: string)
    ensures ValidateEmail(email) <==> DotAfterFirstAt(email)
  {
    if ValidateEmail(email) {
      AcceptedHasDot(email);
    }
    if DotAfterFirstAt(email) {
      var i, j :| 0 <= i < j < |email| && email[i] == '@' && '@' !in email[..i]
        && email[j] == '.' && '@' !in email[i + 1..j];
      DotIsAccepted(email, i, j);
    }
  }

  /** An ordinary address is accepted. */
  lemma ValidateEmailAcceptsPlainAddress()
    ensures ValidateEmail("a@b.c")
  {
    assert "a@b.c"[..1] == "a" && "a@b.c"[2..3] == "b";
    DotIsAccepted("a@b.c", 1, 3);
  }

  /** Nothing is needed before the `@` or after the `.`. */
  lemma ValidateEmailAcceptsBareParts()
    ensures ValidateEmail("@x.y")
    ensures ValidateEmail("a@b.")
  {
    assert "@x.y"[..0] == [] && "@x.y"[1..2] == "x";
    DotIsAccepted("@x.y", 0, 2);
    assert "a@b."[..1] == "a" && "a@b."[2..3] == "b";
    DotIsAccepted("a@b.", 1, 3);
  }

  /** A `.` only after a second `@` does not count. */
  lemma ValidateEmailRejectsDotAfterSecondAt()
    ensures !ValidateEmail("a@b@c.d")
  {
    assert "a@b@c.d"[..1] == "a";
    IndexOfUnique("a@b@c.d", '@', 1);
    SecondPart("a@b@c.d", '@');
    assert "a@b@c.d"[2..] == "b@c.d";
    assert "b@c.d"[..1] == "b";
    IndexOfUnique("b@c.d", '@', 1);
    assert "b@c.d"[..1] == "b";
  }

  /** A `.` only before the `@` does not count, and neither does a missing `@`. */
  lemma ValidateEmailRejectsDotBeforeAt()
    ensures !ValidateEmail("a.b@c")
    ensures !ValidateEmail("ab.c")
  {
    assert "a.b@c"[..3] == "a.b";
    IndexOfUnique("a.b@c", '@', 3);
    SecondPart("a.b@c", '@');
    assert "a.b@c"[4..] == "c";
    assert '@' !in "ab.c";
  }

  /** `bool(roll_number) and len(roll_number) <= 20`. */
  function ValidateRollNumber(rollNumber: string): (ok: bool)
    ensures ok <==> 1 <= |rollNumber| <= 20
  {
    rollNumber != [] && |rollNumber| <= 20
  }

  /** Any characters are accepted, including spaces: only the length is checked. */
  lemma ValidateRollNumberExamples()
    ensures ValidateRollNumber("CS-2024 001")
    ensures ValidateRollNumber("12345678901234567890")
    ensures !ValidateRollNumber("123456789012345678901")
    ensures !ValidateRollNumber("")
  {
  }

  // ------------------------------------------------------------------
  // get_grade_emoji / get_risk_emoji (utils.py:26-34)
  // ------------------------------------------------------------------

  /** The default of both lookups: mis-decoded U+2022 BULLET. */
  const DefaultEmoji := "\U{00E2}\U{20AC}\U{00A2}"

  /** `get_grade_emoji`: a dictionary lookup with the bullet as default. */
  function GradeEmoji(grade: string): (emoji: string)
    ensures grade == "A" ==> emoji == "\U{00F0}\U{0178}\U{0152}\U{0178}"
    ensures grade == "B" ==> emoji == "\U{00E2}\U{0153}\U{00A8}"
    ensures grade == "C" ==> emoji == "\U{00F0}\U{0178}\U{2018}"
    ensures grade == "D" ==> emoji == "\U{00E2}\U{0161}\U{00A0}\U{00EF}\U{00B8}"
    ensures emoji == DefaultEmoji <==> grade !in {"A", "B", "C", "D"}
  {
    var emojis := map[
      "A" := "\U{00F0}\U{0178}\U{0152}\U{0178}",
      "B" := "\U{00E2}\U{0153}\U{00A8}",
      "C" := "\U{00F0}\U{0178}\U{2018}",
      "D" := "\U{00E2}\U{0161}\U{00A0}\U{00EF}\U{00B8}"
    ];
    if grade in emojis then emojis[grade] else DefaultEmoji
  }

  /** `get_risk_emoji`: a dictionary lookup with the bullet as default. */
  function RiskEmoji(level: string): (emoji: string)
    ensures level == "Low" ==> emoji == "\U{00E2}\U{0153}\U{2026}"
    ensures level == "Medium" ==> emoji == "\U{00E2}\U{0161}\U{00A1}"
    ensures level == "High" ==> emoji == "\U{00F0}\U{0178}\U{201D}\U{00B4}"
    ensures emoji == DefaultEmoji <==> level !in {"Low", "Medium", "High"}
  {
    var emojis := map[
      "Low" := "\U{00E2}\U{0153}\U{2026}",
      "Medium" := "\U{00E2}\U{0161}\U{00A1}",
      "High" := "\U{00F0}\U{0178}\U{201D}\U{00B4}"
    ];
    if level in emojis then emojis[level] else DefaultEmoji
  }

  /**
   * Every grade and level the model produces gets its own symbol: no two
   * grades share one, no two levels share one, and none falls back to
   * the default.
   */
  lemma EmojisDistinguishOutputs(score: real, risk: real)
    ensures GradeEmoji(Grading.GradeLabel(score)) != DefaultEmoji
    ensures RiskEmoji(Backend.LevelOf(risk)) != DefaultEmoji
    ensures forall g1, g2 :: g1 in {"A", "B", "C", "D"} && g2 in {"A", "B", "C", "D"} && g1 != g2 ==> GradeEmoji(g1) != GradeEmoji(g2)
    ensures forall l1, l2 :: l1 in {"Low", "Medium", "High"} && l2 in {"Low", "Medium", "High"} && l1 != l2 ==> RiskEmoji(l1) != RiskEmoji(l2)
  {
    assert GradeEmoji("A")[1] != GradeEmoji("C")[1] || GradeEmoji("A")[2] != GradeEmoji("C")[2];
    assert |GradeEmoji("A")| == 4 && |GradeEmoji("B")| == 3 && |GradeEmoji("C")| == 3 && |GradeEmoji("D")| == 5;
    assert GradeEmoji("B")[0] != GradeEmoji("C")[0];
    assert RiskEmoji("Low")[1] != RiskEmoji("Medium")[1];
    assert |RiskEmoji("High")| == 4 && |RiskEmoji("Low")| == 3 && |RiskEmoji("Medium")| == 3;
  }
}
