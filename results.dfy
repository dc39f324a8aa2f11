/** The academic-results page (pages/Results.tsx): a fixed term transcript, its announced
    credit total, and a colour for each grade. */
module Results {
  import opened Types
  import opened Text

  /** `MOCK_RESULTS`: the Spring 2024 transcript. Grade points are kept as exact reals. */
  const MockResults: seq<CourseResult> := [
    CourseResult("CS401", "Software Engineering II", "هندسة البرمجيات 2", 3, "A", 4.0, "Spring 2024"),
    CourseResult("CS402", "Machine Learning", "تعلم الآلة", 4, "A-", 3.7, "Spring 2024"),
    CourseResult("CS403", "Cloud Computing", "الحوسبة السحابية", 3, "B+", 3.3, "Spring 2024"),
    CourseResult("CS404", "Database Security", "أمن قواعد البيانات", 3, "A", 4.0, "Spring 2024"),
    CourseResult("CS405", "Human Computer Interaction", "التفاعل بين الإنسان والحاسوب", 2, "B", 3.0, "Spring 2024")
  ]

  /** The term the table's heading names, and the total its badge announces. */
  const HeaderSemester: string := "Spring 2024"
  const TermTotalCredits: int := 15

  /** The credit hours of a list of courses. */
  function TotalCredits(rs: seq<CourseResult>): (t: int)
    ensures (forall k :: 0 <= k < |rs| ==> rs[k].credits >= 0) ==> t >= 0
    ensures |rs| == 1 ==> t == rs[0].credits
  {
    if rs == [] then 0 else rs[0].credits + TotalCredits(rs[1..])
  }

  /** Totals add up over concatenation, so any split of the transcript agrees. */
  lemma {:induction false} TotalCreditsAppend(a: seq<CourseResult>, b: seq<CourseResult>)
    ensures TotalCredits(a + b) == TotalCredits(a) + TotalCredits(b)
    decreases |a|
  {
    if a == [] {
      assert a + b == b;
    } else {
      assert (a + b)[1..] == a[1..] + b;
      TotalCreditsAppend(a[1..], b);
    }
  }

  /** The transcript's credits do sum to the announced term total. */
  lemma MockTotalMatchesHeader()
    ensures TotalCredits(MockResults) == TermTotalCredits
  {
  }

  /** Every row belongs to the semester the heading names. */
  lemma MockSemesterMatchesHeader()
    ensures forall r :: r in MockResults ==> r.semester == HeaderSemester
  {
  }

  /** No course appears twice. */
  lemma MockCodesDistinct()
    ensures forall i, j :: 0 <= i < j < |MockResults| ==> MockResults[i].code != MockResults[j].code
  {
  }

  /** The grade badge's three colour schemes. */
  datatype GradeStyle = Emerald | Blue | Slate

  /** The badge colour: by the grade's first letter only. */
  function StyleOfGrade(grade: string): (st: GradeStyle)
    ensures st == Emerald <==> |grade| > 0 && grade[0] == 'A'
    ensures st == Blue <==> |grade| > 0 && grade[0] == 'B'
    ensures st == Slate <==> grade == [] || (grade[0] != 'A' && grade[0] != 'B')
  {
    if StartsWith(grade, "A") then Emerald
    else if StartsWith(grade, "B") then Blue
    else Slate
  }

  /** Plus and minus modifiers do not change the colour. */
  lemma StyleIgnoresModifier(letter: char, modifier: string)
    ensures StyleOfGrade([letter] + modifier) == StyleOfGrade([letter])
  {
  }

  /** The colours of the mock transcript, row by row. */
  lemma MockGradeStyles()
    ensures |MockResults| == 5
    ensures StyleOfGrade(MockResults[0].grade) == Emerald
    ensures StyleOfGrade(MockResults[1].grade) == Emerald
    ensures StyleOfGrade(MockResults[2].grade) == Blue
    ensures StyleOfGrade(MockResults[3].grade) == Emerald
    ensures StyleOfGrade(MockResults[4].grade) == Blue
  {
  }

  /** One course's quality points: its credit hours times its grade points. */
  function Weight(r: CourseResult): real {
    r.credits as real * r.points
  }

  /** Credit-weighted grade points of a list of courses. */
  function QualityPoints(rs: seq<CourseResult>): (q: real)
    ensures (forall k :: 0 <= k < |rs| ==> rs[k].credits >= 0 && rs[k].points >= 0.0) ==> q >= 0.0
    ensures |rs| == 1 ==> q == Weight(rs[0])
  {
    if rs == [] then 0.0 else Weight(rs[0]) + QualityPoints(rs[1..])
  }

  /** Quality points add up over concatenation, so any split of the transcript agrees. */
  lemma {:induction false} QualityPointsAppend(a: seq<CourseResult>, b: seq<CourseResult>)
    ensures QualityPoints(a + b) == QualityPoints(a) + QualityPoints(b)
    decreases |a|
  {
    if a == [] {
      assert a + b == b;
    } else {
      assert (a + b)[0] == a[0];
      assert (a + b)[1..] == a[1..] + b;
      QualityPointsAppend(a[1..], b);
      assert QualityPoints(a + b) == Weight(a[0]) + QualityPoints(a[1..] + b);
    }
  }

  /** The hard-coded semester GPA of 3.64 is the transcript's weighted average
      (54.7 / 15 = 3.6466…) cut to two decimals, not rounded. */
  lemma HeaderGpaTruncatesAverage()
    ensures QualityPoints(MockResults) == 54.7
    ensures 3.64 * TermTotalCredits as real <= QualityPoints(MockResults) < 3.65 * TermTotalCredits as real
    ensures QualityPoints(MockResults) >= 3.645 * TermTotalCredits as real
  {
  }
}
