/**
 * The upload form: a dropped image file with its preview, the patient's id and name, and a
 * flag that is up while the simulated upload runs.  Toasts and the navigation after a
 * successful upload are returned as values instead of being performed.
 */
module Upload {
  import opened Wrappers
  import opened Strings
  import Header
  import Results

  /** What the form keeps of a dropped file. */
  datatype FileInfo = FileInfo(name: string, fileType: string, size: nat)

  /** A toast shown to the user. */
  datatype Notice = ToastError(text: string) | ToastSuccess(text: string)

  /** What `onDrop` makes of a drop. */
  datatype DropOutcome = Ignored | Rejected(notice: Notice) | Accepted(file: FileInfo)

  /** `onDrop`'s guards: an empty drop is ignored; otherwise only the first file counts, and
      it is rejected unless its type starts with "image/". */
  function DropDecision(accepted: seq<FileInfo>): (d: DropOutcome)
    ensures d == Ignored <==> accepted == []
    ensures d.Rejected? <==> accepted != [] && !StartsWith(accepted[0].fileType, "image/")
    ensures d.Rejected? ==> d.notice == ToastError("Please upload an image file")
    ensures d.Accepted? ==> d.file == accepted[0] && StartsWith(d.file.fileType, "image/")
  {
    if accepted == [] then Ignored
    else if !StartsWith(accepted[0].fileType, "image/") then Rejected(ToastError("Please upload an image file"))
    else Accepted(accepted[0])
  }

  /** Only the first file of a drop is looked at: the files after it never change the outcome. */
  lemma OnlyFirstFileCounts(first: FileInfo, rest1: seq<FileInfo>, rest2: seq<FileInfo>)
    ensures DropDecision([first] + rest1) == DropDecision([first] + rest2)
  {
    assert ([first] + rest1)[0] == first && ([first] + rest2)[0] == first;
  }

  /** The outcome of `handleSubmit`'s guards. */
  datatype SubmitCheck = NoFile | MissingPatient | Proceed

  /** `handleSubmit`'s guards, in order: the file first, then the patient's id and name (an
      empty string is falsy). */
  function SubmitGuard(file: Option<FileInfo>, patientId: string, patientName: string): (g: SubmitCheck)
    ensures g == NoFile <==> file.None?
    ensures g == MissingPatient <==> file.Some? && (patientId == "" || patientName == "")
    ensures g == Proceed <==> file.Some? && patientId != "" && patientName != ""
  {
    if file.None? then NoFile
    else if patientId == "" || patientName == "" then MissingPatient
    else Proceed
  }

  /** The missing file is reported before the patient fields are looked at: with no file,
      the fields make no difference. */
  lemma FileCheckedFirst(id1: string, name1: string, id2: string, name2: string)
    ensures SubmitGuard(None, id1, name1) == SubmitGuard(None, id2, name2) == NoFile
  {
  }

  /** The toast of a guard that stops the submission. */
  function GuardNotice(g: SubmitCheck): (n: Option<Notice>)
    ensures n.None? <==> g == Proceed
  {
    match g
    case NoFile => Some(ToastError("Please upload an image"))
    case MissingPatient => Some(ToastError("Please enter patient information"))
    case Proceed => None
  }

  /** Where a successful upload leads. */
  const ResultsPath := "/results/scan-128"

  /** A successful upload opens a results page: the header titles it as a classification
      result, and the record that page loads is the scan the path names. */
  lemma UploadLeadsToResults()
    ensures Header.PageTitle(ResultsPath) == "Classification Results"
    ensures ResultsPath == "/results/" + Results.MockScanData.id
  {
    var id := "scan-128";
    assert ResultsPath == "/results/" + id;
    Header.ResultsPathTitle(id);
  }

  /** The form's state. */
  class UploadForm {
    var file: Option<FileInfo>
    var preview: Option<string>
    var patientId: string
    var patientName: string
    var uploading: bool

    /** The empty form. */
    constructor()
      ensures file == None && preview == None && patientId == "" && patientName == "" && !uploading
    {
      file := None;
      preview := None;
      patientId := "";
      patientName := "";
      uploading := false;
    }

    /** The submit button is enabled exactly when no upload runs and a file is chosen. */
    function CanSubmit(): (b: bool)
      reads this
      ensures b <==> !uploading && file.Some?
    {
      !(uploading || file.None?)
    }

    /** `onDrop`: an accepted image becomes the chosen file (its preview is read
        separately); an empty drop changes nothing; a rejected file leaves the previous
        choice in place and raises a toast. */
    method OnDrop(accepted: seq<FileInfo>) returns (notice: Option<Notice>)
      modifies this
      ensures DropDecision(accepted).Accepted? ==> file == Some(accepted[0]) && notice == None
      ensures DropDecision(accepted) == Ignored ==> file == old(file) && notice == None
      ensures DropDecision(accepted).Rejected? ==> file == old(file) && notice == Some(DropDecision(accepted).notice)
      ensures preview == old(preview) && patientId == old(patientId) && patientName == old(patientName)
      ensures uploading == old(uploading)
    {
      var d := DropDecision(accepted);
      match d
      case Ignored =>
        notice := None;
      case Rejected(n) =>
        notice := Some(n);
      case Accepted(f) =>
        file := Some(f);
        notice := None;
    }

    /** The file reader finished: its data URL becomes the preview. */
    method OnPreviewLoaded(dataUrl: string)
      modifies this
      ensures preview == Some(dataUrl)
      ensures file == old(file) && patientId == old(patientId) && patientName == old(patientName)
      ensures uploading == old(uploading)
    {
      preview := Some(dataUrl);
    }

    /** `clearSelection`: the file and its preview go, the patient fields stay. */
    method ClearSelection()
      modifies this
      ensures file == None && preview == None
      ensures patientId == old(patientId) && patientName == old(patientName) && uploading == old(uploading)
      ensures !CanSubmit()
    {
      file := None;
      preview := None;
    }

    method SetPatientId(text: string)
      modifies this
      ensures patientId == text
      ensures file == old(file) && preview == old(preview) && patientName == old(patientName)
      ensures uploading == old(uploading)
    {
      patientId := text;
    }

    method SetPatientName(text: string)
      modifies this
      ensures patientName == text
      ensures file == old(file) && preview == old(preview) && patientId == old(patientId)
      ensures uploading == old(uploading)
    {
      patientName := text;
    }

    /** `handleSubmit` up to its wait: a failing guard raises its toast and changes nothing;
        otherwise the upload starts and the button is disabled while it runs. */
    method Submit() returns (notice: Option<Notice>)
      modifies this
      ensures notice == GuardNotice(SubmitGuard(old(file), old(patientId), old(patientName)))
      ensures uploading <==> old(uploading) || SubmitGuard(old(file), old(patientId), old(patientName)) == Proceed
      ensures SubmitGuard(old(file), old(patientId), old(patientName)) == Proceed ==> !CanSubmit()
      ensures file == old(file) && preview == old(preview)
      ensures patientId == old(patientId) && patientName == old(patientName)
    {
      var g := SubmitGuard(file, patientId, patientName);
      notice := GuardNotice(g);
      if g == Proceed {
        uploading := true;
      }
    }

    /** `handleSubmit` after its wait: on success a toast and the move to the new scan's
        results, on failure an error toast; either way the flag comes down (`finally`). */
    method Settle(failed: bool) returns (notice: Notice, destination: Option<string>)
      modifies this
      ensures !uploading
      ensures !failed ==> notice == ToastSuccess("Image uploaded successfully") && destination == Some(ResultsPath)
      ensures failed ==> notice == ToastError("Upload failed. Please try again.") && destination == None
      ensures file == old(file) && preview == old(preview)
      ensures patientId == old(patientId) && patientName == old(patientName)
      ensures CanSubmit() <==> file.Some?
    {
      if failed {
        notice := ToastError("Upload failed. Please try again.");
        destination := None;
      } else {
        notice := ToastSuccess("Image uploaded successfully");
        destination := Some(ResultsPath);
      }
      uploading := false;
    }
  }
}
