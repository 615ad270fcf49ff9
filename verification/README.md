# Diabetic retinopathy dashboard: a verified model of its page logic

This project models the logic of a React front end for a diabetic-retinopathy screening
service. The front end works on mock data only. It is written in Dafny, and every
property below is proved for all inputs.

- **Patient History page** (`PatientHistory`, the largest part).
  - A search box filters the scan list by a case-insensitive substring of the patient's name or id.
  - The scans are grouped by patient in a plain object.
  - Each group is sorted in place, newest first, and its head becomes the patient's row.
  - The rows are sorted by name in either direction. A click expands one patient's full history.
  - The grouping and the in-place newest-first sort of each group run imperatively, with loop invariants, in `GroupByPatient` and `LatestPerPatient`.
  - `Aggregate` chains these two methods. It then sorts the heads by name with one call to the stable sort `Sorting.SortBy`, which is a function and has no loop.
  - They are proved against specification functions (`PatientIds`, `GroupOf`, `Latest`, `Representatives`, `Table`).
  - The page's state is the class `Page`.
- **Grade panel** (`GradeIndicator`): the grade label map, the heading text and the three confidence-colour bands.
- **Dashboard "recent scans" table** (`RecentScans`): its own label and icon map, the row badge text, and one row per scan keyed by id.
- **Header** (`Header`): the page title chosen from the path, and the displayed user name.
- **Results page** (`Results`):
  - the follow-up advice chosen by grade;
  - the spinner / not-found / detail gating;
  - the notes editor and saving the notes into the record (class `ResultsPage`).
- **Upload form** (`Upload`):
  - the drop guards, the submit guards in their order, and the uploading flag;
  - the submit-button condition (class `UploadForm`).

Supporting modules model the JavaScript built-ins the pages rely on:

- `Strings`: `startsWith`, `includes`, `toLowerCase`, `trim`, integer-to-text.
- `Sorting`: `Array.prototype.sort` as a stable insertion sort on a numeric key, with a descending comparator as the negated key.
- `JsObjects`: the key order of `Object.keys` and the names an object literal inherits.
- `Collections`: `filter`, `map`, and facts about duplicates.

Modelling choices:

- Scan times are the integers `Date.getTime()` returns.
- `localeCompare` is a collation key `collate: string -> real`, which describes any total preorder on names.
- Grades are JavaScript numbers, so the grade of a history scan, all three label maps and the advice rule take a `real`.
  - The dashboard's recent scans keep integer grades, as every listed scan has one; their label map still takes a `real`.
  - The label switches compare with `===`, so a fraction such as 1.5 falls back to "Unknown".
  - The advice's urgent block is guarded by `>=`, so 3.5 gets it; only fractions below 3 get no advice.

## Model

| member | source | states |
|---|---|---|
| PatientHistory.GradeLabel | src/pages/PatientHistory.tsx:178-187 | the label is "Unknown" exactly for the numbers other than 0 to 4, fractions included |
| PatientHistory.GradeLabelsDistinct | src/pages/PatientHistory.tsx:178-187 | two different known grades never share a label |
| PatientHistory.ChangeIndicator | src/pages/PatientHistory.tsx:189-202 | up arrow iff "improved", down arrow iff "worsened", right arrow iff "stable", bullet for every other value; "Unknown" iff none of the four values |
| PatientHistory.Matches | src/pages/PatientHistory.tsx:131-134 | the filter predicate; its meaning is stated by SearchKeepsMatches and SearchCaseInsensitive |
| PatientHistory.FilterMatching | src/pages/PatientHistory.tsx:131-134 | the filtered list; stated by SearchKeepsMatches and FilterMatchingAppend |
| PatientHistory.Search | src/pages/PatientHistory.tsx:124-137 | the list `handleSearch` shows; stated by BlankSearchShowsAll, SearchKeepsMatches, SearchIdempotent and SearchCaseInsensitive |
| PatientHistory.SearchCaseInsensitive | src/pages/PatientHistory.tsx:128-134 | a term and its lower-case form show the same list, so the search ignores the case of the term |
| PatientHistory.BlankSearchShowsAll | src/pages/PatientHistory.tsx:128-129 | a term made only of whitespace shows the full list |
| PatientHistory.SearchKeepsMatches | src/pages/PatientHistory.tsx:130-135 | any other term keeps each record whose lowercased name or id contains the lowercased untrimmed term, as often as the list holds it, and nothing else |
| PatientHistory.FilterMatchingAppend | src/pages/PatientHistory.tsx:131-134 | filtering keeps the relative order of the kept records |
| PatientHistory.SearchIdempotent | src/pages/PatientHistory.tsx:129-131 | searching a search result with the same term changes nothing |
| PatientHistory.Page.HandleSearch | src/pages/PatientHistory.tsx:124-137 | the new list is the search of the full list for the term, never of the previous list; the other state is unchanged |
| PatientHistory.PatientIds | src/pages/PatientHistory.tsx:144-151 | the ids that get groups are distinct and are exactly the ids occurring in the list |
| PatientHistory.GroupOfCounts | src/pages/PatientHistory.tsx:144-151 | a patient's group holds exactly that patient's scans, each as often as the list does |
| PatientHistory.GroupOfNonEmpty | src/pages/PatientHistory.tsx:144-151 | a group is non-empty exactly for the patients that occur |
| PatientHistory.GroupStep | src/pages/PatientHistory.tsx:145-149 | one more scan adds a new id only for an unseen patient and is appended to its own group only |
| PatientHistory.PartitionStep | src/pages/PatientHistory.tsx:145-149 | one more scan raises the total of the group sizes by exactly one |
| PatientHistory.GroupsPartition | src/pages/PatientHistory.tsx:144-151 | grouping is a partition: the group sizes add up to the length of the list |
| PatientHistory.GroupByPatient | src/pages/PatientHistory.tsx:144-151 | the loop builds exactly one group per patient, holding that patient's scans in list order, and creates the keys in first-seen order |
| PatientHistory.Latest | src/pages/PatientHistory.tsx:154-161 | the head of a patient's date-sorted group is a scan of that patient, from the list, and no scan in the group is newer |
| PatientHistory.HistoryIsPatientsScansNewestFirst | src/pages/PatientHistory.tsx:157-159 | the sorted group shown as the history holds exactly the patient's scans, with dates non-increasing |
| PatientHistory.LatestPerPatient | src/pages/PatientHistory.tsx:154-161 | the loop sorts every group newest first in place and collects the heads in key order |
| PatientHistory.SortNextGroup | src/pages/PatientHistory.tsx:157-159 | sorting the next key's group in place keeps the already-sorted groups and leaves the unvisited ones as built |
| PatientHistory.HeadsAppend | src/pages/PatientHistory.tsx:155-160 | the sorted group of an occurring patient is non-empty, and its first scan is that patient's head |
| PatientHistory.PatientKeys | src/pages/PatientHistory.tsx:154 | Object.keys of the groups lists each patient exactly once |
| PatientHistory.Heads | src/pages/PatientHistory.tsx:154-161 | one head per key, each the latest scan of that key's patient |
| PatientHistory.OnePerPatient | src/pages/PatientHistory.tsx:154-167 | the rows hold exactly one scan per distinct patient id |
| PatientHistory.LatestIsLatestOf | src/pages/PatientHistory.tsx:155-160 | the head is in its patient's group and at least as new as every scan in it |
| PatientHistory.HeadsAreLatest | src/pages/PatientHistory.tsx:154-161 | every head is the latest scan of its patient |
| PatientHistory.RowIsLatest | src/pages/PatientHistory.tsx:154-167 | every row, after the name sort, is the latest scan of its patient |
| PatientHistory.Representatives | src/pages/PatientHistory.tsx:154-167 | the heads in key order, sorted by name; stated by OnePerPatient, RowIsLatest, RowsOrderedByName, EqualNamesKeepFirstAppearance and DescIsReverseOfAsc |
| PatientHistory.RepresentativesEmpty | src/pages/PatientHistory.tsx:154-167 | there are no rows exactly when the filtered list is empty |
| PatientHistory.RowsOrderedByName | src/pages/PatientHistory.tsx:164-167 | 'asc' orders rows by non-decreasing collation of the name, 'desc' by non-increasing |
| PatientHistory.EqualNamesKeepFirstAppearance | src/pages/PatientHistory.tsx:164-167 | when no patient id looks like an array index (Object.keys lists those first), rows whose names compare equal keep the order of their patients' first scans, in both directions |
| PatientHistory.DescIsReverseOfAsc | src/pages/PatientHistory.tsx:164-167 | when different patients' names never compare equal, 'desc' is exactly 'asc' reversed |
| PatientHistory.Aggregate | src/pages/PatientHistory.tsx:143-167 | the reduce, the in-place group sorts and the name sort give the specified sorted groups and rows |
| PatientHistory.Page.Render | src/pages/PatientHistory.tsx:281-370 | the rendered body is the specified table for the current list, direction and expanded patient |
| PatientHistory.TableOf | src/pages/PatientHistory.tsx:281-370 | the table body for given rows; stated by TableOfRows and TableOfFromGroups |
| PatientHistory.Table | src/pages/PatientHistory.tsx:281-370 | the table body of the page; stated by TableEmptyIffNoScans, RowCount and TableRowsShowLatest |
| PatientHistory.TableOfFromGroups | src/pages/PatientHistory.tsx:282-338 | looking each history up in the sorted groups object gives the specified rows |
| PatientHistory.RowsHaveGroups | src/pages/PatientHistory.tsx:285 | every row's patient has a group in the groups object |
| PatientHistory.RowCount | src/pages/PatientHistory.tsx:281-282 | there are as many rows as distinct patients |
| PatientHistory.TableEmptyIffNoScans | src/pages/PatientHistory.tsx:281-369 | the "No patients match" row appears exactly when the list is empty; otherwise there is one row per patient |
| PatientHistory.TableOfRows | src/pages/PatientHistory.tsx:282-338 | each row shows its scan with its grade and trend badges; only the expanded patient's row has a history, which is that patient's sorted group |
| PatientHistory.TableRowsShowLatest | src/pages/PatientHistory.tsx:282-338 | each row shows its patient's latest scan and badges; only the expanded patient's row carries a history, which is all of that patient's scans newest first |
| PatientHistory.Toggle | src/pages/PatientHistory.tsx:116-122 | clicking the expanded patient collapses it; clicking any other patient makes it the only expanded one |
| PatientHistory.ToggleTwiceFromNone | src/pages/PatientHistory.tsx:116-122 | toggling a patient twice from nothing expanded returns to nothing expanded |
| PatientHistory.Flip | src/pages/PatientHistory.tsx:139-141 | toggling always changes the direction |
| PatientHistory.FlipTwice | src/pages/PatientHistory.tsx:139-141 | toggling the direction twice is the identity |
| PatientHistory.Page.constructor | src/pages/PatientHistory.tsx:111-114 | the page starts with an empty term, the full list, nothing expanded and 'desc' |
| PatientHistory.Page.ToggleSortDirection | src/pages/PatientHistory.tsx:139-141 | the direction flips and nothing else changes |
| PatientHistory.Page.TogglePatientExpansion | src/pages/PatientHistory.tsx:116-122 | the expanded patient toggles and nothing else changes |
| PatientHistory.Push | src/pages/PatientHistory.tsx:146-149 | one reduce step appends the scan to its patient's group, creating it if absent, and leaves every other group alone |
| PatientHistory.PushKeepsGrouping | src/pages/PatientHistory.tsx:146-149 | pushing one more scan keeps a grouping of the scans seen a grouping |
| PatientHistory.GroupAsWritten | src/pages/PatientHistory.tsx:144-151 | the reduce as written, `None` where it throws; stated by PrototypeNameBreaksGrouping, GroupAsWrittenPushes and GroupAsWrittenAgrees |
| PatientHistory.PrototypeNameBreaksGrouping | src/pages/PatientHistory.tsx:144-151 | a patient id "toString" makes the reduce as written throw |
| PatientHistory.GroupAsWrittenPushes | src/pages/PatientHistory.tsx:144-151 | away from the inherited names, the reduce as written never throws and only pushes |
| PatientHistory.PushAllGroups | src/pages/PatientHistory.tsx:144-151 | pushing the remaining scans onto a grouping of the scans seen groups them all |
| PatientHistory.GroupAsWrittenAgrees | src/pages/PatientHistory.tsx:144-151 | with no inherited name among the ids, the reduce as written succeeds and builds one group per patient, like GroupByPatient |
| Sorting.SortBy | src/pages/PatientHistory.tsx:157-167 | the stable sort on a numeric key; stated by SortByPermutes, SortBySorts, SortByStable and SortByNegatedIsReverse |
| Sorting.SortByPermutes | src/pages/PatientHistory.tsx:157-159 | the sort keeps the elements with their multiplicities |
| Sorting.SortBySorts | src/pages/PatientHistory.tsx:164-167 | the sort leaves the keys non-decreasing |
| Sorting.SortByStable | src/pages/PatientHistory.tsx:164-167 | elements with equal keys keep their input order |
| Sorting.SortByNegatedIsReverse | src/pages/PatientHistory.tsx:164-167 | with pairwise different keys, sorting on the negated key gives exactly the reverse |
| JsObjects.OwnKeys | src/pages/PatientHistory.tsx:154 | the order of `Object.keys`; stated by OwnKeysPermutes and OwnKeysInCreationOrder |
| JsObjects.OwnKeysPermutes | src/pages/PatientHistory.tsx:154 | Object.keys lists every created key exactly once |
| JsObjects.OwnKeysInCreationOrder | src/pages/PatientHistory.tsx:154 | with no array-index-like key, Object.keys is creation order |
| Collections.FilterCounts | src/pages/PatientHistory.tsx:131-134 | filter keeps each satisfying element as often as the input holds it, and no other |
| Collections.FilterIdempotent | src/pages/PatientHistory.tsx:129-131 | filtering twice with one predicate is filtering once |
| Strings.Contains | src/pages/PatientHistory.tsx:132-133 | includes is true exactly when the text occurs at some position |
| Strings.ToLower | src/pages/PatientHistory.tsx:132-133 | lowercasing keeps the length, leaves no letter A to Z, folds each character on its own and keeps whitespace where it was |
| Strings.ToLowerIdempotent | src/pages/PatientHistory.tsx:132-133 | lowercasing twice is lowercasing once |
| Strings.Trim | src/pages/PatientHistory.tsx:128 | trim; its meaning for the blank test is stated by TrimEmptyIffBlank |
| Strings.TrimEmptyIffBlank | src/pages/PatientHistory.tsx:128 | trim gives "" exactly when every character is whitespace |
| Strings.StartsWith | src/components/layout/Header.tsx:21 | startsWith is true exactly when the prefix is the first characters of the path |
| Strings.IntToString | src/components/results/GradeIndicator.tsx:85 | the text of an integer is a '-' exactly for negative numbers, followed by a non-empty run of decimal digits with no leading zero (except for 0 itself) that reads back as the number's magnitude |
| GradeIndicator.GetGradeInfo | src/components/results/GradeIndicator.tsx:11-67 | 0 to 4 get their own labels; every other number gets "Unknown" and "Classification not available" |
| GradeIndicator.UnknownExactlyOutside | src/components/results/GradeIndicator.tsx:58-66 | the label is "Unknown", and the description the fallback, exactly for numbers other than 0 to 4 |
| GradeIndicator.IconsByGrade | src/components/results/GradeIndicator.tsx:11-67 | the check icon iff grade 0; the triangle iff grade 3 or 4 |
| GradeIndicator.ConfidenceBand | src/components/results/GradeIndicator.tsx:94 | green iff above 90, blue iff above 75 up to 90, yellow iff 75 or less |
| GradeIndicator.BandBoundaries | src/components/results/GradeIndicator.tsx:94 | 90 is blue and 75 is yellow |
| GradeIndicator.BandsMonotone | src/components/results/GradeIndicator.tsx:94 | a higher confidence never gets a lower band |
| GradeIndicator.Heading | src/components/results/GradeIndicator.tsx:84-86 | the heading text; its layout is stated by HeadingShowsGradeAndLabel |
| GradeIndicator.HeadingShowsGradeAndLabel | src/components/results/GradeIndicator.tsx:85 | for any info, the heading is "Grade ", the grade's number reading back as the grade, ": ", then that info's label |
| GradeIndicator.BarWidth | src/components/results/GradeIndicator.tsx:95 | the bar width; stated by BarNotClamped |
| GradeIndicator.BarNotClamped | src/components/results/GradeIndicator.tsx:95 | for every confidence the bar width is the confidence itself, unclamped: above 100 it draws past the track, below 0 it is negative |
| GradeIndicator.PanelOf | src/components/results/GradeIndicator.tsx:70-98 | the panel built from `getGradeInfo(grade)` and the confidence; stated by PanelShowsMapLabel |
| GradeIndicator.PanelShowsMapLabel | src/components/results/GradeIndicator.tsx:70-95 | the panel's heading starts with "Grade " and ends with the label the map gives the grade ("Unknown" for an integer outside 0 to 4); the bar is green iff above 90, yellow iff 75 or less, and as wide as the confidence |
| GradeIndicator.GradeTwoHeading | src/components/results/GradeIndicator.tsx:85 | grade 2 is headed "Grade 2: Moderate NPDR" |
| RecentScans.GetGradeInfo | src/components/dashboard/RecentScans.tsx:49-88 | every number other than 0 to 4 gets "Unknown" with the eye icon |
| RecentScans.LabelsAgreeWithHistory | src/components/dashboard/RecentScans.tsx:49-88 | on every number the dashboard label equals the patient-history label |
| RecentScans.UnknownExactlyOutside | src/components/dashboard/RecentScans.tsx:81-86 | "Unknown" exactly outside 0 to 4 |
| RecentScans.IconsByGrade | src/components/dashboard/RecentScans.tsx:52-85 | check iff 0, circle iff 2, triangle iff 3 or 4, eye for 1 and all other numbers |
| RecentScans.RowLabelShowsGradeAndLabel | src/components/dashboard/RecentScans.tsx:145 | the badge text is "Grade ", the grade's number reading back as the grade, " - ", then the label |
| RecentScans.RowLabel | src/components/dashboard/RecentScans.tsx:145 | the badge text; its layout is stated by RowLabelShowsGradeAndLabel |
| RecentScans.RowOf | src/components/dashboard/RecentScans.tsx:124-156 | one scan's row, built from `getGradeInfo(scan.grade)`; stated by RowsFollowScans and LinksOpenResults |
| RecentScans.Rows | src/components/dashboard/RecentScans.tsx:123-157 | the rows of a scan list; stated by RowsFollowScans |
| RecentScans.RowsFollowScans | src/components/dashboard/RecentScans.tsx:123-127 | one row per scan in list order, each showing its scan and keyed by its id; distinct ids give distinct keys |
| RecentScans.MockKeysDistinct | src/components/dashboard/RecentScans.tsx:5-46 | the five listed scans give five rows with distinct keys |
| RecentScans.LinksOpenResults | src/components/dashboard/RecentScans.tsx:152 | each row links under "/results/" with the scan id after it, a page the header titles "Classification Results" |
| Header.PageTitle | src/components/layout/Header.tsx:10-26 | the title is always one of six fixed strings |
| Header.ExactPathTitles | src/components/layout/Header.tsx:11-19 | each of the four page titles is reached from exactly its own path |
| Header.ResultsPrefixTitle | src/components/layout/Header.tsx:20-23 | "Classification Results" exactly for the paths starting with "/results/" |
| Header.ResultsPathTitle | src/components/layout/Header.tsx:21-22 | "/results/" followed by any id is titled "Classification Results" |
| Header.DefaultTitle | src/components/layout/Header.tsx:20-24 | the fallback title exactly for paths that are none of the four and not under "/results/" |
| Header.NearMissPaths | src/components/layout/Header.tsx:11-24 | "/results" and "/dashboard/" fall back to the default; "/results/" is under the prefix |
| Header.DisplayName | src/components/layout/Header.tsx:42 | the user's name when present and non-empty, otherwise "Doctor" |
| Header.DisplayNameNeverEmpty | src/components/layout/Header.tsx:42 | the displayed name is never empty |
| Results.RecommendedActions | src/pages/Results.tsx:168-195 | the advice list; stated by AdviceByGrade, AdviceHeads and OneBlockAtMost |
| Results.AdviceByGrade | src/pages/Results.tsx:168-195 | the routine block iff 0, follow-up iff 1, referral iff 2, urgent iff at least 3, and nothing iff none of these |
| Results.AdviceHeads | src/pages/Results.tsx:168-195 | 2, 3, 3 and 4 items starting with the routine, follow-up, referral and urgent first lines; 3.5 and 7 get the urgent block |
| Results.OneBlockAtMost | src/pages/Results.tsx:168-195 | at most one block renders; every integer grade from 0 gets exactly one; a negative grade or a fraction below 3 gets none |
| Results.WithNotes | src/pages/Results.tsx:53 | saving replaces the notes and no other field of the record |
| Results.WithNotesOverwrites | src/pages/Results.tsx:51-56 | a later save overwrites an earlier one; saving unchanged notes changes nothing |
| Results.ViewOf | src/pages/Results.tsx:58-76 | spinner iff loading, whatever the record; "not found" iff loaded without a record; otherwise the record with its grade panel, advice and notes |
| Results.MockScanAdvice | src/pages/Results.tsx:8-21 | the fetched record is grade 2: "Moderate NPDR" with the referral advice |
| Results.ResultsPage.constructor | src/pages/Results.tsx:25-27 | the page starts loading, with no record and empty notes |
| Results.ResultsPage.Render | src/pages/Results.tsx:58-64 | while loading the spinner is shown |
| Results.ResultsPage.OnRouteChange | src/pages/Results.tsx:29-31 | a new route id shows the spinner and keeps the record and notes |
| Results.ResultsPage.OnFetchDone | src/pages/Results.tsx:32-37 | the fetch delivers the mock record whatever the route id, copies its notes and ends loading |
| Results.ResultsPage.EditNotes | src/pages/Results.tsx:203-205 | typing replaces the edited notes only |
| Results.ResultsPage.SaveNotes | src/pages/Results.tsx:51-56 | the record's notes become the edited notes, nothing else changes, and the confirmation is returned |
| Upload.DropDecision | src/pages/Upload.tsx:16-26 | an empty drop is ignored; the first file is rejected with a toast exactly when its type does not start with "image/", otherwise accepted |
| Upload.OnlyFirstFileCounts | src/pages/Upload.tsx:18 | files after the first never change the outcome of a drop |
| Upload.SubmitGuard | src/pages/Upload.tsx:53-61 | no file is reported first; then a missing id or name; otherwise the upload proceeds |
| Upload.FileCheckedFirst | src/pages/Upload.tsx:53-56 | with no file, the patient fields make no difference |
| Upload.GuardNotice | src/pages/Upload.tsx:53-61 | a toast exactly when a guard stops the submission |
| Upload.UploadLeadsToResults | src/pages/Upload.tsx:72 | the success path is a results page titled "Classification Results" for the scan the results page loads |
| Upload.UploadForm.constructor | src/pages/Upload.tsx:9-13 | the form starts empty and not uploading |
| Upload.UploadForm.CanSubmit | src/pages/Upload.tsx:186 | the button is enabled exactly when no upload runs and a file is chosen |
| Upload.UploadForm.OnDrop | src/pages/Upload.tsx:16-35 | an accepted image becomes the file; an empty or rejected drop keeps the previous file; nothing else changes |
| Upload.UploadForm.OnPreviewLoaded | src/pages/Upload.tsx:30-32 | the read data URL becomes the preview and nothing else changes |
| Upload.UploadForm.ClearSelection | src/pages/Upload.tsx:45-48 | file and preview are cleared, the patient fields kept, and the button disabled |
| Upload.UploadForm.SetPatientId | src/pages/Upload.tsx:160 | only the patient id changes |
| Upload.UploadForm.SetPatientName | src/pages/Upload.tsx:175 | only the patient name changes |
| Upload.UploadForm.Submit | src/pages/Upload.tsx:50-63 | a failing guard raises its toast and changes nothing; otherwise uploading starts and the button is disabled |
| Upload.UploadForm.Settle | src/pages/Upload.tsx:66-77 | success toasts and leads to the new results page, failure toasts an error; either way the flag comes down |

## Left out

- Date parsing (`new Date(...).getTime()`) is left out: scan times are integers, and the day-and-time formatting of every `formatDate` is locale formatting.
- Locale-aware collation is left out: `localeCompare` is an abstract collation key, and any total preorder on names is covered.
- Strings.ToLower: folds only A to Z. The full Unicode case mapping of `toLowerCase` is not modelled.
- `toFixed` renderings of the confidence and the file size are left out; they are floating-point formatting.
- The number text of a non-integer grade in the grade heading and the badge text is left out. `Heading`, `PanelOf` and `RowLabel` take integer grades; the label maps take any number.
- The timers and browser effects are left out:
  - the `setTimeout` of the simulated fetch and upload, the `FileReader`, `toast`, `alert` and `navigate`;
  - toasts, the alert text and the destination are returned as values instead;
  - timer and reader callbacks are separate methods (`OnFetchDone`, `OnPreviewLoaded`, `Settle`) that may be called in any order.
- Upload.UploadForm.Settle: the failure branch is a parameter. The simulated wait never rejects, so the source never takes it.
- Results.ResultsPage.SaveNotes: requires the detail view. The save button is rendered only there, so the spread of a missing record is not modelled.
- react-dropzone's own `accept` filter and `maxFiles` limit are left out; the library is not visible. So is the browser's validation of `required` inputs. `onDrop` is modelled on whatever list it receives.
- PatientHistory's two "View" links (`/results/${patient.id}` and `/results/${scan.id}`) are not modelled, nor are the history rows' grade colours.
- The mock scan lists of the history and results pages are left out; the model works on any list. The dashboard's five scans are kept to state the key property.
- Styling, animation and icons beyond which icon is chosen are left out.
- Login, Sidebar, App routing, Dashboard, Resources, MetricCard and RetinopathyDistribution are not part of this model. They are static rendering or thin wrappers over code that is not visible.
- JavaScript numbers are doubles; ages, grades and times here are unbounded integers or reals, without rounding.

## Findings

| source | as written | input that shows it | evidently intended | confidence | as-written member | corrected member |
|---|---|---|---|---|---|---|
| src/pages/PatientHistory.tsx:144-151 | the reduce starts from the object literal `{}` and tests `!groups[patientId]`, so an id naming an inherited `Object.prototype` member finds a truthy function and never gets its own array; `.push` then throws a TypeError | a scan with patientId "toString" (likewise "constructor", "valueOf", "__proto__") | one group per patient id, whatever the id (a prototype-free object or a `Map`) | not executed | PatientHistory.PrototypeNameBreaksGrouping | PatientHistory.GroupByPatient |
