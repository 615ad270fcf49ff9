/**
 * The "recent scans" table of the dashboard: a fixed list of scans, one row each, with a
 * grade badge, the text "Grade g - label" and a link to the scan's results page.
 */
module RecentScans {
  import opened Strings
  import opened Collections
  import PatientHistory
  import Header

  datatype Icon = CheckCircle | Eye | AlertCircle | AlertTriangle

  /** A badge: its label, its icon with the icon's own colour, and the badge colours. */
  datatype GradeInfo = GradeInfo(text: string, icon: Icon, iconColor: string, color: string)

  /** `getGradeInfo` of the dashboard: short labels for the five grades, and a fallback for
      every other number (the switch compares with `===`, so 1.5 falls back too). */
  function GetGradeInfo(grade: real): (info: GradeInfo)
    ensures grade !in {0.0, 1.0, 2.0, 3.0, 4.0} ==> info.text == "Unknown" && info.icon == Eye
  {
    if grade == 0.0 then GradeInfo("No DR", CheckCircle, "text-green-600", "bg-green-50 text-green-800")
    else if grade == 1.0 then GradeInfo("Mild", Eye, "text-blue-600", "bg-blue-50 text-blue-800")
    else if grade == 2.0 then GradeInfo("Moderate", AlertCircle, "text-yellow-600", "bg-yellow-50 text-yellow-800")
    else if grade == 3.0 then GradeInfo("Severe", AlertTriangle, "text-red-600", "bg-red-50 text-red-800")
    else if grade == 4.0 then GradeInfo("Proliferative", AlertTriangle, "text-red-900", "bg-red-100 text-red-900")
    else GradeInfo("Unknown", Eye, "text-gray-600", "bg-gray-50 text-gray-800")
  }

  /** On every number the dashboard's labels are the patient-history page's labels. */
  lemma LabelsAgreeWithHistory(grade: real)
    ensures GetGradeInfo(grade).text == PatientHistory.GradeLabel(grade).text
  {
  }

  /** Only the exact numbers 0 to 4 have a label of their own. */
  lemma UnknownExactlyOutside(grade: real)
    ensures GetGradeInfo(grade).text == "Unknown" <==> grade !in {0.0, 1.0, 2.0, 3.0, 4.0}
  {
  }

  /** The icons: a check for 0, a circle for 2, a triangle for 3 and 4, an eye for 1 and for
      every number outside 0 to 4. */
  lemma IconsByGrade(grade: real)
    ensures GetGradeInfo(grade).icon == CheckCircle <==> grade == 0.0
    ensures GetGradeInfo(grade).icon == AlertCircle <==> grade == 2.0
    ensures GetGradeInfo(grade).icon == AlertTriangle <==> grade == 3.0 || grade == 4.0
    ensures GetGradeInfo(grade).icon == Eye <==> grade !in {0.0, 2.0, 3.0, 4.0}
  {
  }

  /** A scan as the dashboard lists it; the date stays the text it is stored as. */
  datatype RecentScan = RecentScan(id: string, patientId: string, patientName: string, date: string, grade: int, confidence: real)

  /** The five scans the dashboard shows. */
  const MockRecentScans: seq<RecentScan> := [
    RecentScan("scan-123", "P-5692", "Robert Johnson", "2025-05-21T14:23:00", 0, 98.2),
    RecentScan("scan-124", "P-4821", "Maria Garcia", "2025-05-21T11:05:00", 3, 93.7),
    RecentScan("scan-125", "P-3219", "David Lee", "2025-05-20T16:48:00", 1, 95.1),
    RecentScan("scan-126", "P-7103", "Emily Wilson", "2025-05-20T10:12:00", 2, 89.5),
    RecentScan("scan-127", "P-6287", "Samantha Brown", "2025-05-19T15:30:00", 4, 96.3)
  ]

  /** The badge text "Grade g - label". */
  function RowLabel(grade: int, info: GradeInfo): string
  {
    "Grade " + IntToString(grade) + " - " + info.text
  }

  /** The badge text starts with "Grade ", then the grade's number, which reads back as the
      grade, then " - ", and ends with the label of the info it was given. */
  lemma RowLabelShowsGradeAndLabel(grade: int, info: GradeInfo)
    ensures var t := RowLabel(grade, info); var n := IntToString(grade); var l := info.text;
      && |t| == 9 + |n| + |l|
      && StartsWith(t, "Grade ")
      && t[6..6 + |n|] == n
      && (grade >= 0 ==> DigitsValue(t[6..6 + |n|]) == grade)
      && (grade < 0 ==> t[6] == '-' && DigitsValue(t[7..6 + |n|]) == -grade)
      && t[6 + |n|..9 + |n|] == " - "
      && t[|t| - |l|..] == l
  {
    var n, l := IntToString(grade), info.text;
    var t := RowLabel(grade, info);
    assert t[..6] == "Grade ";
    assert t[6..6 + |n|] == n;
    assert t[6 + |n|..9 + |n|] == " - ";
    assert t[|t| - |l|..] == l;
    if grade < 0 {
      assert t[7..6 + |n|] == n[1..];
    }
  }

  /** One table row: its React key, the patient, the date text, the badge and its text, and
      the link to the scan's results. */
  datatype Row = Row(key: string, patientName: string, patientId: string, date: string,
                     badge: GradeInfo, badgeText: string, link: string)

  function RowOf(scan: RecentScan): Row
  {
    var info := GetGradeInfo(scan.grade as real);
    Row(scan.id, scan.patientName, scan.patientId, scan.date, info, RowLabel(scan.grade, info), "/results/" + scan.id)
  }

  /** `mockRecentScans.map(...)`: one row per scan. */
  function Rows(scans: seq<RecentScan>): seq<Row>
  {
    MapSeq(scans, RowOf)
  }

  function ScanIds(scans: seq<RecentScan>): seq<string>
  {
    MapSeq(scans, (s: RecentScan) => s.id)
  }

  function RowKeys(rows: seq<Row>): seq<string>
  {
    MapSeq(rows, (r: Row) => r.key)
  }

  /** There is one row per scan, in list order; each row shows its own scan and is keyed by
      its id, and distinct scan ids give distinct keys. */
  lemma RowsFollowScans(scans: seq<RecentScan>)
    ensures |Rows(scans)| == |scans|
    ensures forall i :: 0 <= i < |scans| ==>
              && Rows(scans)[i].key == scans[i].id
              && Rows(scans)[i].patientName == scans[i].patientName
              && Rows(scans)[i].patientId == scans[i].patientId
              && Rows(scans)[i].badge == GetGradeInfo(scans[i].grade as real)
    ensures RowKeys(Rows(scans)) == ScanIds(scans)
    ensures Distinct(ScanIds(scans)) ==> Distinct(RowKeys(Rows(scans)))
  {
  }

  /** The listed scans have distinct ids, so the row keys are distinct. */
  lemma MockKeysDistinct()
    ensures |Rows(MockRecentScans)| == 5
    ensures Distinct(ScanIds(MockRecentScans))
    ensures Distinct(RowKeys(Rows(MockRecentScans)))
  {
    var ids := ScanIds(MockRecentScans);
    assert |ids| == 5;
    forall i | 0 <= i < 5 ensures |ids[i]| == 8 && ids[i][7] == "34567"[i] {
    }
    forall i, j | 0 <= i < j < 5 ensures ids[i] != ids[j] {
      assert ids[i][7] != ids[j][7];
    }
    RowsFollowScans(MockRecentScans);
  }

  /** Every row links to a path under "/results/", whose page the header titles as a
      classification result, and the scan id reads back from the link. */
  lemma LinksOpenResults(scan: RecentScan)
    ensures StartsWith(RowOf(scan).link, "/results/")
    ensures RowOf(scan).link[9..] == scan.id
    ensures Header.PageTitle(RowOf(scan).link) == "Classification Results"
  {
    var link := RowOf(scan).link;
    assert link[..9] == "/results/";
    Header.ResultsPathTitle(scan.id);
  }
}
