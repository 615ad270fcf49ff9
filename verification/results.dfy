/**
 * The results page of one scan: a simulated fetch that shows a spinner until it completes,
 * a "not found" message when no record arrived, and otherwise the record, the grade panel,
 * the follow-up advice chosen by grade, and editable doctor's notes.
 *
 * The grade is any JavaScript number, so it is a `real` here: the advice rule compares it
 * with `===` for 0, 1 and 2 but with `>=` for the urgent block.
 */
module Results {
  import opened Wrappers
  import GradeIndicator

  /** The scan record the page shows. */
  datatype ScanData = ScanData(
    id: string, patientId: string, patientName: string, patientAge: int, patientGender: string,
    date: string, scanType: string, eye: string, grade: real, confidence: real, notes: string,
    imageUrl: string)

  /** The record every fetch delivers, whatever scan the route names. */
  const MockScanData := ScanData(
    "scan-128", "P-5692", "Robert Johnson", 62, "Male", "2025-05-22T10:15:00",
    "Fundus Photography", "Right", 2.0, 93.7, "",
    "https://images.pexels.com/photos/5726796/pexels-photo-5726796.jpeg?auto=compress&cs=tinysrgb&w=1260&h=750&dpr=2")

  const RoutineBlock: seq<string> := [
    "Routine screening in 12 months",
    "Encourage good glycemic control"
  ]

  const FollowUpBlock: seq<string> := [
    "Follow-up screening in 6-12 months",
    "Optimize diabetes management",
    "Monitor for progression"
  ]

  const ReferralBlock: seq<string> := [
    "Refer to ophthalmologist within 3 months",
    "Tight glycemic and blood pressure control",
    "Follow-up retinal assessment in 4-6 months"
  ]

  const UrgentBlock: seq<string> := [
    "Urgent referral to ophthalmologist (within 1 month)",
    "Consider laser photocoagulation treatment",
    "Strict control of diabetes and hypertension",
    "Close monitoring required"
  ]

  /** The "Recommended Actions" list: four guarded blocks rendered one after the other. */
  function RecommendedActions(grade: real): seq<string>
  {
    (if grade == 0.0 then RoutineBlock else [])
    + (if grade == 1.0 then FollowUpBlock else [])
    + (if grade == 2.0 then ReferralBlock else [])
    + (if grade >= 3.0 then UrgentBlock else [])
  }

  /** How many of the four guards hold for `grade`. */
  function BlocksShown(grade: real): nat
  {
    (if grade == 0.0 then 1 else 0) + (if grade == 1.0 then 1 else 0)
    + (if grade == 2.0 then 1 else 0) + (if grade >= 3.0 then 1 else 0)
  }

  predicate IsInteger(x: real)
  {
    x.Floor as real == x
  }

  /** The advice for each grade band: routine care for 0, follow-up for 1, referral for 2,
      urgent referral for every grade from 3 up, and nothing for any other number. */
  lemma AdviceByGrade(grade: real)
    ensures RecommendedActions(grade) == RoutineBlock <==> grade == 0.0
    ensures RecommendedActions(grade) == FollowUpBlock <==> grade == 1.0
    ensures RecommendedActions(grade) == ReferralBlock <==> grade == 2.0
    ensures RecommendedActions(grade) == UrgentBlock <==> grade >= 3.0
    ensures RecommendedActions(grade) == [] <==> grade !in {0.0, 1.0, 2.0} && grade < 3.0
  {
    assert RoutineBlock != FollowUpBlock && RoutineBlock != ReferralBlock && RoutineBlock != UrgentBlock by {
      assert RoutineBlock[0] != FollowUpBlock[0];
    }
    assert FollowUpBlock != ReferralBlock && FollowUpBlock != UrgentBlock by {
      assert FollowUpBlock[0] != ReferralBlock[0];
    }
    assert ReferralBlock != UrgentBlock;
    var actions := RecommendedActions(grade);
    if grade == 0.0 {
      assert actions == RoutineBlock;
    } else if grade == 1.0 {
      assert actions == FollowUpBlock;
    } else if grade == 2.0 {
      assert actions == ReferralBlock;
    } else if grade >= 3.0 {
      assert actions == UrgentBlock;
    } else {
      assert actions == [];
    }
  }

  /** The sizes and the first items the advice starts with. */
  lemma AdviceHeads()
    ensures |RecommendedActions(0.0)| == 2 && RecommendedActions(0.0)[0] == "Routine screening in 12 months"
    ensures |RecommendedActions(1.0)| == 3 && RecommendedActions(1.0)[0] == "Follow-up screening in 6-12 months"
    ensures |RecommendedActions(2.0)| == 3 && RecommendedActions(2.0)[0] == "Refer to ophthalmologist within 3 months"
    ensures |RecommendedActions(4.0)| == 4 && RecommendedActions(4.0)[0] == "Urgent referral to ophthalmologist (within 1 month)"
    ensures RecommendedActions(3.5) == UrgentBlock && RecommendedActions(7.0) == UrgentBlock
  {
    AdviceByGrade(0.0);
    AdviceByGrade(1.0);
    AdviceByGrade(2.0);
    AdviceByGrade(4.0);
  }

  /** The guards exclude each other, so at most one block is rendered; every integer grade
      from 0 up gets exactly one, and a negative grade or a fraction below 3 gets none. */
  lemma OneBlockAtMost(grade: real)
    ensures BlocksShown(grade) <= 1
    ensures IsInteger(grade) && grade >= 0.0 ==> BlocksShown(grade) == 1
    ensures grade < 0.0 || (!IsInteger(grade) && grade < 3.0) ==> BlocksShown(grade) == 0
    ensures BlocksShown(grade) == 0 <==> RecommendedActions(grade) == []
  {
    if IsInteger(grade) && 0.0 <= grade < 3.0 {
      var k := grade.Floor;
      assert k == 0 || k == 1 || k == 2;
    }
  }

  /** `{ ...scanData, notes }`: the record with its notes replaced. */
  function WithNotes(data: ScanData, notes: string): (r: ScanData)
    ensures r.notes == notes
    ensures r.(notes := data.notes) == data
  {
    data.(notes := notes)
  }

  /** Saving twice keeps only the later notes; saving the notes a record already has changes
      nothing. */
  lemma WithNotesOverwrites(data: ScanData, a: string, b: string)
    ensures WithNotes(WithNotes(data, a), b) == WithNotes(data, b)
    ensures WithNotes(data, data.notes) == data
  {
  }

  /** What the page renders. */
  datatype View =
    | Spinner
    | NotFound
    | Detail(data: ScanData, grade: GradeIndicator.GradeInfo, actions: seq<string>, notes: string)

  /** The page's early returns: the spinner first, then the missing record, then the detail. */
  function ViewOf(loading: bool, scanData: Option<ScanData>, notes: string): (v: View)
    ensures loading <==> v == Spinner
    ensures v == NotFound <==> !loading && scanData.None?
    ensures v.Detail? ==>
              && scanData == Some(v.data) && v.notes == notes
              && v.actions == RecommendedActions(v.data.grade)
              && v.grade == GradeIndicator.GetGradeInfo(v.data.grade)
  {
    if loading then Spinner
    else if scanData.None? then NotFound
    else
      var d := scanData.value;
      Detail(d, GradeIndicator.GetGradeInfo(d.grade), RecommendedActions(d.grade), notes)
  }

  /** The fetched record is a grade-2 scan: its panel reads "Moderate NPDR" and its advice is
      the referral block. */
  lemma MockScanAdvice()
    ensures GradeIndicator.GetGradeInfo(MockScanData.grade).text == "Moderate NPDR"
    ensures RecommendedActions(MockScanData.grade) == ReferralBlock
  {
    AdviceByGrade(MockScanData.grade);
  }

  /** The page's state: the route's id, the record, the loading flag and the notes being
      edited. */
  class ResultsPage {
    var routeId: string
    var scanData: Option<ScanData>
    var loading: bool
    var notes: string

    /** The first render: loading, no record, empty notes. */
    constructor(id: string)
      ensures routeId == id && scanData == None && loading && notes == ""
    {
      routeId := id;
      scanData := None;
      loading := true;
      notes := "";
    }

    function Render(): (v: View)
      reads this
      ensures loading ==> v == Spinner
    {
      ViewOf(loading, scanData, notes)
    }

    /** The effect run on mount and whenever the route's id changes: back to the spinner
        until the simulated fetch completes; the record and notes stay as they were. */
    method OnRouteChange(id: string)
      modifies this
      ensures routeId == id && loading
      ensures scanData == old(scanData) && notes == old(notes)
      ensures Render() == Spinner
    {
      routeId := id;
      loading := true;
    }

    /** The fetch's timer fires: the mock record arrives (the route's id is not consulted),
        its notes are copied into the editor, and loading ends. */
    method OnFetchDone()
      modifies this
      ensures routeId == old(routeId)
      ensures scanData == Some(MockScanData) && notes == MockScanData.notes && !loading
      ensures Render() == Detail(MockScanData, GradeIndicator.GetGradeInfo(2.0), ReferralBlock, "")
    {
      scanData := Some(MockScanData);
      notes := MockScanData.notes;
      loading := false;
      MockScanAdvice();
    }

    /** Typing in the notes box. */
    method EditNotes(text: string)
      modifies this
      ensures notes == text
      ensures routeId == old(routeId) && scanData == old(scanData) && loading == old(loading)
    {
      notes := text;
    }

    /** `handleSaveNotes`, reachable only from the button of the detail view: the record's
        notes become the edited notes and nothing else in it changes. */
    method SaveNotes() returns (message: string)
      requires !loading && scanData.Some?
      modifies this
      ensures scanData == Some(WithNotes(old(scanData.value), old(notes)))
      ensures routeId == old(routeId) && notes == old(notes) && loading == old(loading)
      ensures message == "Notes saved successfully"
    {
      scanData := Some(WithNotes(scanData.value, notes));
      message := "Notes saved successfully";
    }
  }
}
