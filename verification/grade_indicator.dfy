/**
 * The grade panel of the results page: a label and description per grade, a heading
 * "Grade g: label", and a confidence bar whose colour falls in one of three bands.
 *
 * The grade is any JavaScript number, compared with `===` by the switch, so it is a
 * `real` here: only the exact values 0 to 4 have their own entries.
 */
module GradeIndicator {
  import opened Strings

  datatype Icon = CheckCircle | AlertCircle | AlertTriangle

  datatype GradeInfo = GradeInfo(text: string, description: string, icon: Icon, color: string, bgColor: string, borderColor: string)

  /** `getGradeInfo`: five named grades, and a fallback for every other number. */
  function GetGradeInfo(grade: real): (info: GradeInfo)
    ensures grade == 0.0 ==> info.text == "No Diabetic Retinopathy"
    ensures grade == 1.0 ==> info.text == "Mild NPDR"
    ensures grade == 2.0 ==> info.text == "Moderate NPDR"
    ensures grade == 3.0 ==> info.text == "Severe NPDR"
    ensures grade == 4.0 ==> info.text == "Proliferative DR"
    ensures grade !in {0.0, 1.0, 2.0, 3.0, 4.0} ==> info.text == "Unknown" && info.description == "Classification not available"
  {
    if grade == 0.0 then
      GradeInfo("No Diabetic Retinopathy", "No abnormalities detected in the retina.", CheckCircle,
                "text-green-600", "bg-green-50", "border-green-200")
    else if grade == 1.0 then
      GradeInfo("Mild NPDR", "Presence of microaneurysms only.", AlertCircle,
                "text-blue-600", "bg-blue-50", "border-blue-200")
    else if grade == 2.0 then
      GradeInfo("Moderate NPDR", "Microaneurysms and some other abnormalities.", AlertCircle,
                "text-yellow-600", "bg-yellow-50", "border-yellow-200")
    else if grade == 3.0 then
      GradeInfo("Severe NPDR", "More extensive damage to the retina.", AlertTriangle,
                "text-red-600", "bg-red-50", "border-red-200")
    else if grade == 4.0 then
      GradeInfo("Proliferative DR", "Advanced disease with abnormal blood vessel growth.", AlertTriangle,
                "text-red-800", "bg-red-100", "border-red-300")
    else
      GradeInfo("Unknown", "Classification not available", AlertCircle,
                "text-gray-600", "bg-gray-50", "border-gray-200")
  }

  /** Only the numbers outside 0 to 4 are "Unknown", and only they lack a description. */
  lemma UnknownExactlyOutside(grade: real)
    ensures GetGradeInfo(grade).text == "Unknown" <==> grade !in {0.0, 1.0, 2.0, 3.0, 4.0}
    ensures GetGradeInfo(grade).description == "Classification not available" <==> grade !in {0.0, 1.0, 2.0, 3.0, 4.0}
  {
  }

  /** The icon: a check for grade 0, a triangle for grades 3 and 4, a circle otherwise. */
  lemma IconsByGrade(grade: real)
    ensures GetGradeInfo(grade).icon == CheckCircle <==> grade == 0.0
    ensures GetGradeInfo(grade).icon == AlertTriangle <==> grade == 3.0 || grade == 4.0
  {
  }

  datatype Band = Green | Blue | Yellow

  /** The colour of the confidence bar: above 90 green, above 75 blue, otherwise yellow. */
  function ConfidenceBand(confidence: real): (b: Band)
    ensures b == Green <==> confidence > 90.0
    ensures b == Blue <==> 75.0 < confidence <= 90.0
    ensures b == Yellow <==> confidence <= 75.0
  {
    if confidence > 90.0 then Green else if confidence > 75.0 then Blue else Yellow
  }

  function BandClass(b: Band): string
  {
    match b
    case Green => "bg-green-600"
    case Blue => "bg-blue-600"
    case Yellow => "bg-yellow-500"
  }

  /** The boundaries belong to the lower band: 90 is blue and 75 is yellow. */
  lemma BandBoundaries()
    ensures ConfidenceBand(90.0) == Blue && ConfidenceBand(75.0) == Yellow
    ensures BandClass(ConfidenceBand(90.0)) == "bg-blue-600" && BandClass(ConfidenceBand(75.0)) == "bg-yellow-500"
  {
  }

  /** The bands are ordered: a higher confidence never gets a lower band. */
  lemma BandsMonotone(c1: real, c2: real)
    requires c1 <= c2
    ensures ConfidenceBand(c1) == Green ==> ConfidenceBand(c2) == Green
    ensures ConfidenceBand(c2) == Yellow ==> ConfidenceBand(c1) == Yellow
  {
  }

  /** The heading "Grade g: label", built from the grade and the info chosen for it. */
  function Heading(grade: int, info: GradeInfo): string
  {
    "Grade " + IntToString(grade) + ": " + info.text
  }

  /** The heading starts with "Grade ", then the grade's own number, which reads back as
      the grade, then ": ", and it ends with the label of the info it was given. */
  lemma HeadingShowsGradeAndLabel(grade: int, info: GradeInfo)
    ensures var h := Heading(grade, info); var n := IntToString(grade); var l := info.text;
      && |h| == 8 + |n| + |l|
      && StartsWith(h, "Grade ")
      && h[6..6 + |n|] == n
      && (grade >= 0 ==> DigitsValue(h[6..6 + |n|]) == grade)
      && (grade < 0 ==> h[6] == '-' && DigitsValue(h[7..6 + |n|]) == -grade)
      && h[6 + |n|..8 + |n|] == ": "
      && h[|h| - |l|..] == l
  {
    var n, l := IntToString(grade), info.text;
    var h := Heading(grade, info);
    assert h[..6] == "Grade ";
    assert h[6..6 + |n|] == n;
    assert h[6 + |n|..8 + |n|] == ": ";
    assert h[|h| - |l|..] == l;
    if grade < 0 {
      assert h[7..6 + |n|] == n[1..];
    }
  }

  /** The width of the bar, in percent: the confidence itself, without clamping. */
  function BarWidth(confidence: real): real
  {
    confidence
  }

  /** Nothing keeps the bar inside its track: the width is the confidence for every value,
      so a confidence above 100 draws past the track and a negative one draws nothing. */
  lemma BarNotClamped(confidence: real)
    ensures BarWidth(confidence) == confidence
    ensures confidence > 100.0 ==> BarWidth(confidence) > 100.0
    ensures confidence < 0.0 ==> BarWidth(confidence) < 0.0
  {
  }

  /** What the panel shows for a grade and a confidence: the info chosen for the grade, the
      heading built from it, and the bar's colour class and width. */
  datatype Panel = Panel(info: GradeInfo, heading: string, barClass: string, barWidth: real)

  /** The component's body: `info` is `getGradeInfo(grade)`, and the heading and the bar are
      built from it and from the confidence. */
  function PanelOf(grade: int, confidence: real): Panel
  {
    var info := GetGradeInfo(grade as real);
    Panel(info, Heading(grade, info), BandClass(ConfidenceBand(confidence)), BarWidth(confidence))
  }

  /** The heading shows the grade's own label from the map, after "Grade " and the grade's
      number; an integer outside 0 to 4 reads "Unknown"; the bar's colour and width follow the
      confidence alone. */
  lemma PanelShowsMapLabel(grade: int, confidence: real)
    ensures var p := PanelOf(grade, confidence); var h := p.heading; var l := GetGradeInfo(grade as real).text;
      && p.info == GetGradeInfo(grade as real)
      && StartsWith(h, "Grade ")
      && |h| >= |l| && h[|h| - |l|..] == l
      && (!(0 <= grade <= 4) ==> h[|h| - 7..] == "Unknown")
      && (p.barClass == "bg-green-600" <==> confidence > 90.0)
      && (p.barClass == "bg-yellow-500" <==> confidence <= 75.0)
      && p.barWidth == confidence
  {
    var info := GetGradeInfo(grade as real);
    HeadingShowsGradeAndLabel(grade, info);
    if !(0 <= grade <= 4) {
      assert grade as real !in {0.0, 1.0, 2.0, 3.0, 4.0};
    }
  }

  /** The scan the results page loads, grade 2, is headed "Grade 2: Moderate NPDR". */
  lemma GradeTwoHeading()
    ensures PanelOf(2, 93.7).heading == "Grade 2: Moderate NPDR"
  {
    assert IntToString(2) == "2";
  }
}
