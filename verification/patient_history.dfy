/**
 * The Patient History page: a list of scans is searched by patient name or id,
 * grouped by patient, each group is sorted newest first and its head becomes the
 * patient's row, and the rows are sorted by name in the chosen direction.  Clicking
 * a row expands it to show that patient's whole scan history.
 *
 * Scan times are `Date.getTime()` values, as integers.  Names are compared with
 * `localeCompare`, modelled by a collation key `collate`: `a.localeCompare(b)` is
 * negative, zero or positive as `collate(a)` is below, equal to or above `collate(b)`,
 * which describes any total preorder on names.
 */
module PatientHistory {
  import opened Wrappers
  import opened Strings
  import opened Collections
  import Sorting
  import JsObjects

  datatype Scan = Scan(
    id: string,
    patientId: string,
    patientName: string,
    date: int,
    age: int,
    gender: string,
    grade: real,
    change: string)

  datatype SortDirection = Asc | Desc

  // ---------------------------------------------------------------------------
  // Label maps

  datatype GradeBadge = GradeBadge(text: string, color: string)

  /** The grade column: one label per grade from 0 to 4, "Unknown" for any other number
      (the switch compares with `===`, so a fraction such as 1.5 is "Unknown" too). */
  function GradeLabel(grade: real): (b: GradeBadge)
    ensures b.text == "Unknown" <==> grade !in {0.0, 1.0, 2.0, 3.0, 4.0}
  {
    if grade == 0.0 then GradeBadge("No DR", "bg-green-100 text-green-800")
    else if grade == 1.0 then GradeBadge("Mild", "bg-blue-100 text-blue-800")
    else if grade == 2.0 then GradeBadge("Moderate", "bg-yellow-100 text-yellow-800")
    else if grade == 3.0 then GradeBadge("Severe", "bg-red-100 text-red-800")
    else if grade == 4.0 then GradeBadge("Proliferative", "bg-red-200 text-red-900")
    else GradeBadge("Unknown", "bg-gray-100 text-gray-800")
  }

  /** Two different known grades never share a label. */
  lemma GradeLabelsDistinct(g1: real, g2: real)
    requires g1 in {0.0, 1.0, 2.0, 3.0, 4.0} && g2 in {0.0, 1.0, 2.0, 3.0, 4.0} && g1 != g2
    ensures GradeLabel(g1).text != GradeLabel(g2).text
  {
  }

  datatype TrendBadge = TrendBadge(text: string, color: string, icon: string)

  /** The trend column.  Icons: up arrow, down arrow, right arrow, bullet. */
  function ChangeIndicator(change: string): (t: TrendBadge)
    ensures t.icon == "\U{2191}" <==> change == "improved"
    ensures t.icon == "\U{2193}" <==> change == "worsened"
    ensures t.icon == "\U{2192}" <==> change == "stable"
    ensures t.icon == "\U{2022}" <==> change !in {"improved", "worsened", "stable"}
    ensures t.text == "Unknown" <==> change !in {"improved", "worsened", "stable", "new"}
  {
    match change
    case "improved" => TrendBadge("Improved", "text-green-600", "\U{2191}")
    case "worsened" => TrendBadge("Worsened", "text-red-600", "\U{2193}")
    case "stable" => TrendBadge("Stable", "text-blue-600", "\U{2192}")
    case "new" => TrendBadge("New", "text-purple-600", "\U{2022}")
    case _ => TrendBadge("Unknown", "text-gray-600", "\U{2022}")
  }

  // ---------------------------------------------------------------------------
  // Search

  /** The filter predicate: the lowercased term occurs in the lowercased name or id. */
  predicate Matches(scan: Scan, term: string)
  {
    Contains(ToLower(scan.patientName), ToLower(term)) || Contains(ToLower(scan.patientId), ToLower(term))
  }

  /** `allScans.filter(...)` with `Matches`. */
  function FilterMatching(scans: seq<Scan>, term: string): seq<Scan>
  {
    Filter(scans, (s: Scan) => Matches(s, term))
  }

  /** The list `handleSearch` shows for `term`: always computed from the full list. */
  function Search(all: seq<Scan>, term: string): seq<Scan>
  {
    if Trim(term) == "" then all else FilterMatching(all, term)
  }

  /** A blank or whitespace-only term shows the full list. */
  lemma BlankSearchShowsAll(all: seq<Scan>, term: string)
    requires forall i :: 0 <= i < |term| ==> IsWhitespace(term[i])
    ensures Search(all, term) == all
  {
    TrimEmptyIffBlank(term);
  }

  /** Any other term keeps exactly the matching records, each as often as it occurs. */
  lemma SearchKeepsMatches(all: seq<Scan>, term: string)
    requires exists i :: 0 <= i < |term| && !IsWhitespace(term[i])
    ensures forall x :: multiset(Search(all, term))[x] == if Matches(x, term) then multiset(all)[x] else 0
  {
    TrimEmptyIffBlank(term);
    assert Search(all, term) == FilterMatching(all, term);
    FilterCounts(all, (s: Scan) => Matches(s, term));
  }

  /** Filtering keeps the relative order of the records it keeps. */
  lemma FilterMatchingAppend(a: seq<Scan>, b: seq<Scan>, term: string)
    ensures FilterMatching(a + b, term) == FilterMatching(a, term) + FilterMatching(b, term)
  {
    FilterAppend(a, b, (s: Scan) => Matches(s, term));
  }

  /** Searching the result of a search again with the same term changes nothing. */
  lemma SearchIdempotent(all: seq<Scan>, term: string)
    ensures Search(Search(all, term), term) == Search(all, term)
  {
    FilterIdempotent(all, (s: Scan) => Matches(s, term));
  }

  /** The search ignores case: a term and its lower-case form show the same list, so
      "GARCIA", "Garcia" and "garcia" find the same patients. */
  lemma SearchCaseInsensitive(all: seq<Scan>, term: string)
    ensures Search(all, ToLower(term)) == Search(all, term)
  {
    var lower := ToLower(term);
    TrimEmptyIffBlank(term);
    TrimEmptyIffBlank(lower);
    ToLowerIdempotent(term);
    assert forall s :: Matches(s, lower) == Matches(s, term);
    FilterAgreeing(all, (s: Scan) => Matches(s, lower), (s: Scan) => Matches(s, term));
  }

  // ---------------------------------------------------------------------------
  // Grouping by patient

  /** The distinct patient ids, in the order of their first scan. */
  function PatientIds(scans: seq<Scan>): (ids: seq<string>)
    ensures Distinct(ids)
    ensures forall p :: p in ids <==> exists i :: 0 <= i < |scans| && scans[i].patientId == p
  {
    if scans == [] then []
    else
      var init, p := scans[..|scans| - 1], scans[|scans| - 1].patientId;
      var ids := PatientIds(init);
      assert forall i :: 0 <= i < |init| ==> init[i] == scans[i];
      if p in ids then ids else ids + [p]
  }

  /** The scans of patient `pid`, in list order: what `groups[pid]` holds once the reduce is done. */
  function GroupOf(scans: seq<Scan>, pid: string): seq<Scan>
  {
    if scans == [] then []
    else GroupOf(scans[..|scans| - 1], pid) + (if scans[|scans| - 1].patientId == pid then [scans[|scans| - 1]] else [])
  }

  /** A patient's group holds that patient's scans, each as often as the list does, and nothing else. */
  lemma {:induction false} GroupOfCounts(scans: seq<Scan>, pid: string)
    ensures forall x :: multiset(GroupOf(scans, pid))[x] == if x.patientId == pid then multiset(scans)[x] else 0
  {
    if scans != [] {
      var init, last := scans[..|scans| - 1], scans[|scans| - 1];
      assert scans == init + [last];
      GroupOfCounts(init, pid);
    }
  }

  lemma GroupOfNonEmpty(scans: seq<Scan>, pid: string)
    ensures GroupOf(scans, pid) != [] <==> pid in PatientIds(scans)
  {
    GroupOfCounts(scans, pid);
    if pid in PatientIds(scans) {
      var i :| 0 <= i < |scans| && scans[i].patientId == pid;
      assert scans[i] in multiset(scans);
      assert multiset(GroupOf(scans, pid))[scans[i]] > 0;
    } else {
      forall i | 0 <= i < |scans| ensures scans[i].patientId != pid {
      }
      forall x ensures multiset(GroupOf(scans, pid))[x] == 0 {
        if x.patientId == pid {
          assert x !in scans;
        }
      }
      assert multiset(GroupOf(scans, pid)) == multiset{};
    }
  }

  /** What one more scan does to the patient ids and the groups. */
  lemma GroupStep(done: seq<Scan>, x: Scan)
    ensures PatientIds(done + [x]) ==
      if x.patientId in PatientIds(done) then PatientIds(done) else PatientIds(done) + [x.patientId]
    ensures forall p :: GroupOf(done + [x], p) == GroupOf(done, p) + (if x.patientId == p then [x] else [])
  {
    assert (done + [x])[..|done|] == done;
  }

  /** The sizes of the groups of `ids`, summed. */
  function TotalSize(scans: seq<Scan>, ids: seq<string>): nat
  {
    if ids == [] then 0 else TotalSize(scans, ids[..|ids| - 1]) + |GroupOf(scans, ids[|ids| - 1])|
  }

  lemma {:induction false} TotalSizeStep(scans: seq<Scan>, x: Scan, ids: seq<string>)
    requires Distinct(ids)
    ensures TotalSize(scans + [x], ids) == TotalSize(scans, ids) + (if x.patientId in ids then 1 else 0)
  {
    if ids != [] {
      var init := ids[..|ids| - 1];
      assert Distinct(init);
      TotalSizeStep(scans, x, init);
      assert (scans + [x])[..|scans|] == scans;
      assert ids == init + [ids[|ids| - 1]];
    }
  }

  /** One more scan adds one to the groups' total: to its patient's group if that patient
      was seen before, or as the first scan of a new group. */
  lemma PartitionStep(init: seq<Scan>, x: Scan)
    ensures TotalSize(init + [x], PatientIds(init + [x])) == TotalSize(init, PatientIds(init)) + 1
  {
    var ids, p := PatientIds(init), x.patientId;
    GroupStep(init, x);
    TotalSizeStep(init, x, ids);
    if p !in ids {
      GroupOfNonEmpty(init, p);
      var ids' := ids + [p];
      assert ids'[..|ids|] == ids;
      assert GroupOf(init + [x], p) == [x];
    }
  }

  /** Grouping is a partition: the groups' sizes add up to the number of scans. */
  lemma {:induction false} GroupsPartition(scans: seq<Scan>)
    ensures TotalSize(scans, PatientIds(scans)) == |scans|
  {
    if scans != [] {
      var init, x := scans[..|scans| - 1], scans[|scans| - 1];
      assert scans == init + [x];
      GroupsPartition(init);
      PartitionStep(init, x);
    }
  }

  // ---------------------------------------------------------------------------
  // Latest scan per patient

  /** The key that orders a group newest first: `new Date(b.date) - new Date(a.date)`. */
  function NewestFirst(s: Scan): real
  {
    -(s.date as real)
  }

  /** A group after `patientScans.sort(...)`: newest first, equal dates in list order. */
  function ByDateDesc(group: seq<Scan>): seq<Scan>
  {
    Sorting.SortBy(group, NewestFirst)
  }

  /** The head of the patient's group after sorting: the scan shown in the patient's row. */
  function Latest(scans: seq<Scan>, pid: string): (r: Scan)
    requires pid in PatientIds(scans)
    ensures r.patientId == pid && r in scans
    ensures forall x :: x in GroupOf(scans, pid) ==> x.date <= r.date
  {
    var g := GroupOf(scans, pid);
    GroupOfNonEmpty(scans, pid);
    GroupOfCounts(scans, pid);
    Sorting.SortByPermutes(g, NewestFirst);
    Sorting.SortBySorts(g, NewestFirst);
    var h := ByDateDesc(g);
    assert h[0] in multiset(g);
    forall x | x in g ensures x.date <= h[0].date {
      assert x in multiset(h);
      var j :| 0 <= j < |h| && h[j] == x;
      assert j == 0 || NewestFirst(h[0]) <= NewestFirst(h[j]);
    }
    h[0]
  }

  /** The expanded "Scan History" of a patient: exactly that patient's scans, newest first. */
  lemma HistoryIsPatientsScansNewestFirst(scans: seq<Scan>, pid: string)
    ensures forall x :: multiset(ByDateDesc(GroupOf(scans, pid)))[x] ==
                        if x.patientId == pid then multiset(scans)[x] else 0
    ensures forall i, j :: 0 <= i < j < |ByDateDesc(GroupOf(scans, pid))| ==>
      ByDateDesc(GroupOf(scans, pid))[i].date >= ByDateDesc(GroupOf(scans, pid))[j].date
  {
    GroupOfCounts(scans, pid);
    Sorting.SortByPermutes(GroupOf(scans, pid), NewestFirst);
    Sorting.SortBySorts(GroupOf(scans, pid), NewestFirst);
  }

  // ---------------------------------------------------------------------------
  // Patient rows

  /** The comparator of `patients.sort`: `localeCompare` on names, negated for 'desc'. */
  function NameKey(dir: SortDirection, collate: string -> real): Scan -> real
  {
    if dir == Asc then (s: Scan) => collate(s.patientName) else (s: Scan) => -collate(s.patientName)
  }

  /** The order in which `Object.keys(groupedScans)` lists the patients. */
  function PatientKeys(scans: seq<Scan>): (keys: seq<string>)
    ensures forall p :: p in keys <==> p in PatientIds(scans)
    ensures Distinct(keys)
  {
    var ids := PatientIds(scans);
    JsObjects.OwnKeysPermutes(ids);
    DistinctTransfers(ids, JsObjects.OwnKeys(ids));
    assert forall p :: p in JsObjects.OwnKeys(ids) <==> p in multiset(ids);
    JsObjects.OwnKeys(ids)
  }

  /** The latest scan of each patient in `keys`, in that order. */
  function Heads(scans: seq<Scan>, keys: seq<string>): (r: seq<Scan>)
    requires forall p :: p in keys ==> p in PatientIds(scans)
    ensures |r| == |keys|
    ensures forall i :: 0 <= i < |keys| ==> r[i] == Latest(scans, keys[i])
  {
    seq(|keys|, i requires 0 <= i < |keys| => Latest(scans, keys[i]))
  }

  /** The `patients` array once sorted by name: one row per patient. */
  function Representatives(scans: seq<Scan>, dir: SortDirection, collate: string -> real): seq<Scan>
  {
    Sorting.SortBy(Heads(scans, PatientKeys(scans)), NameKey(dir, collate))
  }

  function Ids(rows: seq<Scan>): seq<string>
  {
    MapSeq(rows, (s: Scan) => s.patientId)
  }

  /** Exactly one row per distinct patient id among the scans. */
  lemma OnePerPatient(scans: seq<Scan>, dir: SortDirection, collate: string -> real)
    ensures forall p :: multiset(Ids(Representatives(scans, dir, collate)))[p] ==
                        if p in PatientIds(scans) then 1 else 0
  {
    var keys := PatientKeys(scans);
    var heads := Heads(scans, keys);
    var reps := Representatives(scans, dir, collate);
    Sorting.SortByPermutes(heads, NameKey(dir, collate));
    MapPermutes(reps, heads, (s: Scan) => s.patientId);
    assert Ids(heads) == keys;
    DistinctCounts(keys);
  }

  /** `r` is a scan of a patient among `scans`, and no scan of that patient is newer. */
  predicate IsLatestOf(scans: seq<Scan>, r: Scan)
  {
    && r.patientId in PatientIds(scans)
    && r in GroupOf(scans, r.patientId)
    && forall x :: x in GroupOf(scans, r.patientId) ==> x.date <= r.date
  }

  lemma LatestIsLatestOf(scans: seq<Scan>, pid: string)
    requires pid in PatientIds(scans)
    ensures IsLatestOf(scans, Latest(scans, pid))
  {
    var r := Latest(scans, pid);
    GroupOfCounts(scans, pid);
    assert r in multiset(scans);
    assert multiset(GroupOf(scans, pid))[r] > 0;
  }

  lemma HeadsAreLatest(scans: seq<Scan>, keys: seq<string>)
    requires forall p :: p in keys ==> p in PatientIds(scans)
    ensures forall r :: r in Heads(scans, keys) ==> IsLatestOf(scans, r)
  {
    var heads := Heads(scans, keys);
    forall i | 0 <= i < |heads| ensures IsLatestOf(scans, heads[i]) {
      LatestIsLatestOf(scans, keys[i]);
    }
  }

  /** Every row shows a scan of its patient, and no scan of that patient is newer. */
  lemma RowIsLatest(scans: seq<Scan>, dir: SortDirection, collate: string -> real)
    ensures forall r :: r in Representatives(scans, dir, collate) ==> IsLatestOf(scans, r)
  {
    var heads := Heads(scans, PatientKeys(scans));
    var reps := Representatives(scans, dir, collate);
    Sorting.SortByPermutes(heads, NameKey(dir, collate));
    HeadsAreLatest(scans, PatientKeys(scans));
    forall r | r in reps ensures r in heads {
      assert r in multiset(reps);
    }
  }

  /** The table has no patient rows exactly when the list is empty. */
  lemma RepresentativesEmpty(scans: seq<Scan>, dir: SortDirection, collate: string -> real)
    ensures Representatives(scans, dir, collate) == [] <==> scans == []
  {
    Sorting.SortByPermutes(Heads(scans, PatientKeys(scans)), NameKey(dir, collate));
    JsObjects.OwnKeysPermutes(PatientIds(scans));
    if scans != [] {
      assert scans[0].patientId in PatientIds(scans);
    }
  }

  /** 'asc' lists names in non-decreasing collation order, 'desc' in non-increasing order. */
  lemma RowsOrderedByName(scans: seq<Scan>, dir: SortDirection, collate: string -> real)
    ensures var rows := Representatives(scans, dir, collate);
      forall i, j :: 0 <= i < j < |rows| ==>
        if dir == Asc then collate(rows[i].patientName) <= collate(rows[j].patientName)
        else collate(rows[i].patientName) >= collate(rows[j].patientName)
  {
    var heads := Heads(scans, PatientKeys(scans));
    Sorting.SortBySorts(heads, NameKey(dir, collate));
  }

  /** Patients whose names compare equal keep the order of their first scan, in both
      directions, provided no patient id looks like an array index (Object.keys would list
      those first, in numeric order). */
  lemma EqualNamesKeepFirstAppearance(scans: seq<Scan>, dir: SortDirection, collate: string -> real, k: real)
    requires forall p :: p in PatientIds(scans) ==> !JsObjects.IsArrayIndex(p)
    ensures Sorting.KeyClass(Representatives(scans, dir, collate), NameKey(dir, collate), k)
      == Sorting.KeyClass(Heads(scans, PatientIds(scans)), NameKey(dir, collate), k)
  {
    JsObjects.OwnKeysInCreationOrder(PatientIds(scans));
    Sorting.SortByStable(Heads(scans, PatientKeys(scans)), NameKey(dir, collate), k);
  }

  /** When no two patients' names compare equal, 'desc' is exactly 'asc' reversed. */
  lemma DescIsReverseOfAsc(scans: seq<Scan>, collate: string -> real)
    requires forall i, j :: 0 <= i < |scans| && 0 <= j < |scans| && scans[i].patientId != scans[j].patientId ==>
      collate(scans[i].patientName) != collate(scans[j].patientName)
    ensures Representatives(scans, Desc, collate) == Sorting.Reverse(Representatives(scans, Asc, collate))
  {
    var keys := PatientKeys(scans);
    var heads := Heads(scans, keys);
    forall i, j | 0 <= i < j < |heads|
      ensures NameKey(Asc, collate)(heads[i]) != NameKey(Asc, collate)(heads[j])
    {
      var a, b := heads[i], heads[j];
      assert a.patientId == keys[i] && b.patientId == keys[j];
      var ia :| 0 <= ia < |scans| && scans[ia] == a;
      var ib :| 0 <= ib < |scans| && scans[ib] == b;
    }
    Sorting.SortByNegatedIsReverse(heads, NameKey(Asc, collate), NameKey(Desc, collate));
  }

  // ---------------------------------------------------------------------------
  // The aggregation as the page runs it

  /**
   * One render's aggregation: the reduce that pushes each scan into its patient's
   * group, then, for each key of the groups object, the in-place date sort of that
   * group and its head, then the in-place name sort of the heads.
   */
  method Aggregate(filtered: seq<Scan>, dir: SortDirection, collate: string -> real)
    returns (groups: map<string, seq<Scan>>, patients: seq<Scan>)
    ensures SortedGroups(filtered, groups)
    ensures patients == Representatives(filtered, dir, collate)
  {
    var created;
    groups, created := GroupByPatient(filtered);
    var heads;
    var keys := JsObjects.OwnKeys(created);
    assert keys == PatientKeys(filtered);
    groups, heads := LatestPerPatient(filtered, groups, keys);
    patients := Sorting.SortBy(heads, NameKey(dir, collate));
  }

  /** The reduce: each scan is pushed onto its patient's group, and a group is created,
      as an own property of the groups object, the first time its patient is seen. */
  method GroupByPatient(filtered: seq<Scan>) returns (groups: map<string, seq<Scan>>, created: seq<string>)
    ensures created == PatientIds(filtered)
    ensures IsGrouping(filtered, groups)
  {
    groups := map[];
    created := [];
    var i := 0;
    while i < |filtered|
      invariant 0 <= i <= |filtered|
      invariant created == PatientIds(filtered[..i])
      invariant IsGrouping(filtered[..i], groups)
    {
      var scan := filtered[i];
      TakeOneMore(filtered, i);
      GroupStep(filtered[..i], scan);
      PushKeepsGrouping(filtered[..i], groups, scan);
      if scan.patientId !in groups {
        created := created + [scan.patientId];
      }
      var group := if scan.patientId in groups then groups[scan.patientId] else [];
      groups := groups[scan.patientId := group + [scan]];
      i := i + 1;
    }
    assert filtered[..i] == filtered;
  }

  /** `groups` maps exactly the patients among `scans` to their scans, newest first. */
  ghost predicate SortedGroups(scans: seq<Scan>, groups: map<string, seq<Scan>>)
  {
    && (forall p :: p in groups <==> p in PatientIds(scans))
    && (forall p :: p in groups ==> groups[p] == ByDateDesc(GroupOf(scans, p)))
  }

  /** The groups object after the first `j` keys' groups have been sorted in place. */
  ghost predicate SortedUpTo(filtered: seq<Scan>, groups: map<string, seq<Scan>>, keys: seq<string>, j: int)
    requires 0 <= j <= |keys|
  {
    && (forall p :: p in groups <==> p in keys)
    && (forall p :: p in groups && p in keys[..j] ==> groups[p] == ByDateDesc(GroupOf(filtered, p)))
    && (forall p :: p in groups && p !in keys[..j] ==> groups[p] == GroupOf(filtered, p))
  }

  lemma SortNextGroup(filtered: seq<Scan>, groups: map<string, seq<Scan>>, keys: seq<string>, j: int)
    requires Distinct(keys) && 0 <= j < |keys|
    requires SortedUpTo(filtered, groups, keys, j)
    ensures groups[keys[j]] == GroupOf(filtered, keys[j])
    ensures SortedUpTo(filtered, groups[keys[j] := ByDateDesc(groups[keys[j]])], keys, j + 1)
  {
    TakeOneMore(keys, j);
    DistinctNotBefore(keys, j);
  }

  /** `Object.keys(groupedScans).map(...)`: each group, in key order, is sorted newest
      first in place and its first scan is taken. */
  method LatestPerPatient(filtered: seq<Scan>, groups0: map<string, seq<Scan>>, keys: seq<string>)
    returns (groups: map<string, seq<Scan>>, heads: seq<Scan>)
    requires Distinct(keys) && forall p :: p in keys <==> p in PatientIds(filtered)
    requires IsGrouping(filtered, groups0)
    ensures SortedGroups(filtered, groups)
    ensures heads == Heads(filtered, keys)
  {
    groups := groups0;
    heads := [];
    var j := 0;
    assert keys[..0] == [];
    while j < |keys|
      invariant 0 <= j <= |keys|
      invariant SortedUpTo(filtered, groups, keys, j)
      invariant heads == Heads(filtered, keys[..j])
    {
      var p := keys[j];
      SortNextGroup(filtered, groups, keys, j);
      HeadsAppend(filtered, keys[..j], p);
      TakeOneMore(keys, j);
      groups := groups[p := Sorting.SortBy(groups[p], NewestFirst)];
      heads := heads + [groups[p][0]];
      j := j + 1;
    }
    assert keys[..j] == keys;
  }

  lemma DistinctNotBefore(keys: seq<string>, j: int)
    requires Distinct(keys) && 0 <= j < |keys|
    ensures keys[j] !in keys[..j]
  {
  }

  /** The head of a sorted group is the patient's latest scan. */
  lemma HeadsAppend(scans: seq<Scan>, keys: seq<string>, p: string)
    requires forall q :: q in keys ==> q in PatientIds(scans)
    requires p in PatientIds(scans)
    ensures ByDateDesc(GroupOf(scans, p)) != []
    ensures Heads(scans, keys + [p]) == Heads(scans, keys) + [ByDateDesc(GroupOf(scans, p))[0]]
  {
    GroupOfNonEmpty(scans, p);
    Sorting.SortByPermutes(GroupOf(scans, p), NewestFirst);
  }

  // ---------------------------------------------------------------------------
  // The table body

  datatype PatientRow = PatientRow(patient: Scan, grade: GradeBadge, trend: TrendBadge, history: Option<seq<Scan>>)

  /** Either the "No patients match your search criteria" row or one row per patient. */
  datatype TableBody = NoMatches | Rows(rows: seq<PatientRow>)

  function RowFor(p: Scan, history: Option<seq<Scan>>): PatientRow
  {
    PatientRow(p, GradeLabel(p.grade), ChangeIndicator(p.change), history)
  }

  /** The table body for the patient rows `reps`: the "No patients match" row when there
      are none, and otherwise one row each, the expanded patient's with its scans newest first. */
  function TableOf(scans: seq<Scan>, reps: seq<Scan>, expanded: Option<string>): TableBody
  {
    if |reps| == 0 then NoMatches
    else Rows(seq(|reps|, i requires 0 <= i < |reps| =>
      RowFor(reps[i], if expanded == Some(reps[i].patientId) then Some(ByDateDesc(GroupOf(scans, reps[i].patientId))) else None)))
  }

  /** The table body the page shows for a list, a sort direction and an expanded patient. */
  function Table(scans: seq<Scan>, dir: SortDirection, collate: string -> real, expanded: Option<string>): TableBody
  {
    TableOf(scans, Representatives(scans, dir, collate), expanded)
  }

  /** The rows as the page builds them from its aggregation: one per entry of `patients`,
      the history looked up in the groups object. */
  function RowsFrom(patients: seq<Scan>, groups: map<string, seq<Scan>>, expanded: Option<string>): seq<PatientRow>
    requires forall i :: 0 <= i < |patients| ==> patients[i].patientId in groups
  {
    seq(|patients|, i requires 0 <= i < |patients| =>
      RowFor(patients[i], if expanded == Some(patients[i].patientId) then Some(groups[patients[i].patientId]) else None))
  }

  /** Looking histories up in the sorted groups gives the specified rows. */
  lemma TableOfFromGroups(scans: seq<Scan>, reps: seq<Scan>, expanded: Option<string>, groups: map<string, seq<Scan>>)
    requires SortedGroups(scans, groups)
    requires forall i :: 0 <= i < |reps| ==> reps[i].patientId in groups
    ensures TableOf(scans, reps, expanded) == if |reps| == 0 then NoMatches else Rows(RowsFrom(reps, groups, expanded))
  {
    if |reps| != 0 {
      var t := TableOf(scans, reps, expanded);
      var rows := RowsFrom(reps, groups, expanded);
      assert |t.rows| == |rows|;
      forall i | 0 <= i < |rows| ensures t.rows[i] == rows[i] {
      }
    }
  }

  /** Every row's patient has a group in the aggregation. */
  lemma RowsHaveGroups(scans: seq<Scan>, dir: SortDirection, collate: string -> real, groups: map<string, seq<Scan>>)
    requires SortedGroups(scans, groups)
    ensures var reps := Representatives(scans, dir, collate);
      forall i :: 0 <= i < |reps| ==> reps[i].patientId in groups
  {
    var reps := Representatives(scans, dir, collate);
    RowIsLatest(scans, dir, collate);
    forall i | 0 <= i < |reps| ensures reps[i].patientId in groups {
      assert IsLatestOf(scans, reps[i]);
    }
  }

  /** Distinct patients, one row each. */
  lemma RowCount(scans: seq<Scan>, dir: SortDirection, collate: string -> real)
    ensures |Representatives(scans, dir, collate)| == |PatientIds(scans)|
  {
    Sorting.SortByPermutes(Heads(scans, PatientKeys(scans)), NameKey(dir, collate));
    JsObjects.OwnKeysPermutes(PatientIds(scans));
  }

  /** The "No patients match" row appears exactly when the list is empty; otherwise there
      is one row per patient. */
  lemma TableEmptyIffNoScans(scans: seq<Scan>, dir: SortDirection, collate: string -> real, expanded: Option<string>)
    ensures Table(scans, dir, collate, expanded).NoMatches? <==> scans == []
    ensures Table(scans, dir, collate, expanded).Rows? ==> |Table(scans, dir, collate, expanded).rows| == |PatientIds(scans)|
  {
    RepresentativesEmpty(scans, dir, collate);
    RowCount(scans, dir, collate);
  }

  /** Each row of the table for `reps` shows that scan with its grade and trend badges, and
      only the expanded patient's row carries a history. */
  lemma TableOfRows(scans: seq<Scan>, reps: seq<Scan>, expanded: Option<string>)
    ensures var t := TableOf(scans, reps, expanded);
      t.Rows? ==> |t.rows| == |reps| && forall i :: 0 <= i < |t.rows| ==>
        && t.rows[i].patient == reps[i]
        && t.rows[i].grade == GradeLabel(reps[i].grade)
        && t.rows[i].trend == ChangeIndicator(reps[i].change)
        && (t.rows[i].history.Some? <==> expanded == Some(reps[i].patientId))
        && (t.rows[i].history.Some? ==> t.rows[i].history.value == ByDateDesc(GroupOf(scans, reps[i].patientId)))
  {
  }

  /** Each row shows its patient's latest scan with that scan's grade and trend badges, and
      only the expanded patient's row carries a history: all of that patient's scans,
      newest first. */
  lemma TableRowsShowLatest(scans: seq<Scan>, dir: SortDirection, collate: string -> real, expanded: Option<string>)
    ensures var t := Table(scans, dir, collate, expanded);
      t.Rows? ==> forall i :: 0 <= i < |t.rows| ==>
        && IsLatestOf(scans, t.rows[i].patient)
        && t.rows[i].grade == GradeLabel(t.rows[i].patient.grade)
        && t.rows[i].trend == ChangeIndicator(t.rows[i].patient.change)
        && (t.rows[i].history.Some? <==> expanded == Some(t.rows[i].patient.patientId))
        && (t.rows[i].history.Some? ==>
              t.rows[i].history.value == ByDateDesc(GroupOf(scans, t.rows[i].patient.patientId)))
  {
    var reps := Representatives(scans, dir, collate);
    RowIsLatest(scans, dir, collate);
    TableOfRows(scans, reps, expanded);
    forall i | 0 <= i < |reps| ensures IsLatestOf(scans, reps[i]) {
      assert reps[i] in reps;
    }
  }

  /** `togglePatientExpansion`: clicking the expanded patient collapses it; clicking any
      other patient makes it the only expanded one. */
  function Toggle(expanded: Option<string>, pid: string): (r: Option<string>)
    ensures r == None <==> expanded == Some(pid)
    ensures r != None ==> r == Some(pid)
  {
    if expanded == Some(pid) then None else Some(pid)
  }

  lemma ToggleTwiceFromNone(pid: string)
    ensures Toggle(Toggle(None, pid), pid) == None
  {
  }

  /** `toggleSortDirection`. */
  function Flip(dir: SortDirection): (r: SortDirection)
    ensures r != dir
  {
    if dir == Asc then Desc else Asc
  }

  lemma FlipTwice(dir: SortDirection)
    ensures Flip(Flip(dir)) == dir
  {
  }

  /** The page's state: the search box, the list it selects, the expanded patient and
      the name-sort direction. */
  class Page {
    const allScans: seq<Scan>
    const collate: string -> real
    var searchTerm: string
    var filteredScans: seq<Scan>
    var expandedPatient: Option<string>
    var sortDirection: SortDirection

    constructor(allScans: seq<Scan>, collate: string -> real)
      ensures this.allScans == allScans && this.collate == collate
      ensures searchTerm == "" && filteredScans == allScans
      ensures expandedPatient == None && sortDirection == Desc
    {
      this.allScans := allScans;
      this.collate := collate;
      searchTerm := "";
      filteredScans := allScans;
      expandedPatient := None;
      sortDirection := Desc;
    }

    /** `handleSearch`: the new list depends on the term alone, never on the previous list. */
    method HandleSearch(term: string)
      modifies this
      ensures searchTerm == term && filteredScans == Search(allScans, term)
      ensures expandedPatient == old(expandedPatient) && sortDirection == old(sortDirection)
    {
      searchTerm := term;
      if Trim(term) == "" {
        filteredScans := allScans;
      } else {
        filteredScans := FilterMatching(allScans, term);
      }
    }

    method ToggleSortDirection()
      modifies this
      ensures sortDirection == Flip(old(sortDirection))
      ensures searchTerm == old(searchTerm) && filteredScans == old(filteredScans)
      ensures expandedPatient == old(expandedPatient)
    {
      sortDirection := if sortDirection == Asc then Desc else Asc;
    }

    method TogglePatientExpansion(pid: string)
      modifies this
      ensures expandedPatient == Toggle(old(expandedPatient), pid)
      ensures searchTerm == old(searchTerm) && filteredScans == old(filteredScans)
      ensures sortDirection == old(sortDirection)
    {
      if expandedPatient == Some(pid) {
        expandedPatient := None;
      } else {
        expandedPatient := Some(pid);
      }
    }

    /** One render of the table body.  An empty list is not an error: it shows the
        "No patients match" row.  Otherwise the rows are the patients' latest scans in
        name order, and only the expanded patient's row carries its history. */
    method Render() returns (body: TableBody)
      ensures body == Table(filteredScans, sortDirection, collate, expandedPatient)
    {
      var groups, patients := Aggregate(filteredScans, sortDirection, collate);
      RowsHaveGroups(filteredScans, sortDirection, collate, groups);
      TableOfFromGroups(filteredScans, patients, expandedPatient, groups);
      if |patients| == 0 {
        body := NoMatches;
      } else {
        body := Rows(RowsFrom(patients, groups, expandedPatient));
      }
    }
  }

  // ---------------------------------------------------------------------------
  // The reduce as written

  /** One step of the reduce on a groups object that has an own group for the patient,
      or no property of that name at all: push the scan, creating the group if needed. */
  function Push(groups: map<string, seq<Scan>>, x: Scan): (r: map<string, seq<Scan>>)
    ensures x.patientId in r && r[x.patientId] == (if x.patientId in groups then groups[x.patientId] else []) + [x]
    ensures forall p :: p != x.patientId ==> (p in r <==> p in groups) && (p in groups ==> r[p] == groups[p])
  {
    groups[x.patientId := (if x.patientId in groups then groups[x.patientId] else []) + [x]]
  }

  /**
   * The reduce at PatientHistory.tsx:144-151 as written: `groups` starts as the object
   * literal `{}`, so `groups[patientId]` finds an own group first and otherwise a member
   * inherited from Object.prototype.  Those members are truthy, so no array is created
   * and `.push` is called on a function (or on the prototype, for "__proto__"), which
   * throws a TypeError; `None` stands for that exception.
   */
  function GroupAsWritten(scans: seq<Scan>, groups: map<string, seq<Scan>>): Option<map<string, seq<Scan>>>
    decreases |scans|
  {
    if scans == [] then Some(groups)
    else
      var pid := scans[0].patientId;
      if pid !in groups && pid in JsObjects.ObjectPrototypeNames then None
      else GroupAsWritten(scans[1..], Push(groups, scans[0]))
  }

  /** A single scan whose patient id is "toString" makes the page's grouping throw. */
  lemma PrototypeNameBreaksGrouping()
    ensures GroupAsWritten([Scan("scan-1", "toString", "Ann Lee", 0, 50, "Female", 0.0, "new")], map[]) == None
  {
    assert "toString" in JsObjects.ObjectPrototypeNames;
  }

  /** `m` maps exactly the patients among `scans` to their groups, in list order. */
  ghost predicate IsGrouping(scans: seq<Scan>, m: map<string, seq<Scan>>)
  {
    && (forall p :: p in m <==> p in PatientIds(scans))
    && (forall p :: p in m ==> m[p] == GroupOf(scans, p))
  }

  /** Pushing one more scan keeps a grouping a grouping. */
  lemma PushKeepsGrouping(done: seq<Scan>, m: map<string, seq<Scan>>, x: Scan)
    requires IsGrouping(done, m)
    ensures IsGrouping(done + [x], Push(m, x))
  {
    GroupStep(done, x);
    GroupOfNonEmpty(done, x.patientId);
  }

  /** The reduce without the inherited names: every scan pushed in list order. */
  function PushAll(groups: map<string, seq<Scan>>, rest: seq<Scan>): map<string, seq<Scan>>
    decreases |rest|
  {
    if rest == [] then groups else PushAll(Push(groups, rest[0]), rest[1..])
  }

  /** Away from the inherited names, the reduce as written never throws and only pushes. */
  lemma {:induction false} GroupAsWrittenPushes(rest: seq<Scan>, m: map<string, seq<Scan>>)
    requires forall i :: 0 <= i < |rest| ==> rest[i].patientId !in JsObjects.ObjectPrototypeNames
    ensures GroupAsWritten(rest, m) == Some(PushAll(m, rest))
    decreases |rest|
  {
    if rest != [] {
      assert rest[0].patientId !in JsObjects.ObjectPrototypeNames;
      GroupAsWrittenPushes(rest[1..], Push(m, rest[0]));
    }
  }

  /** Pushing the remaining scans onto a grouping of the scans already seen groups them all. */
  lemma {:induction false} PushAllGroups(scans: seq<Scan>, i: nat, m: map<string, seq<Scan>>)
    requires i <= |scans| && IsGrouping(scans[..i], m)
    ensures IsGrouping(scans, PushAll(m, scans[i..]))
    decreases |scans| - i
  {
    if i == |scans| {
      assert scans[..i] == scans;
    } else {
      TakeOneMore(scans, i);
      PushKeepsGrouping(scans[..i], m, scans[i]);
      PushAllGroups(scans, i + 1, Push(m, scans[i]));
      assert scans[i..][1..] == scans[i + 1..];
    }
  }

  /** With no inherited name among the patient ids, the reduce as written succeeds and
      builds one group per patient, as `GroupByPatient` does. */
  lemma GroupAsWrittenAgrees(scans: seq<Scan>)
    requires forall i :: 0 <= i < |scans| ==> scans[i].patientId !in JsObjects.ObjectPrototypeNames
    ensures GroupAsWritten(scans, map[]).Some?
    ensures IsGrouping(scans, GroupAsWritten(scans, map[]).value)
  {
    assert IsGrouping(scans[..0], map[]);
    GroupAsWrittenPushes(scans, map[]);
    PushAllGroups(scans, 0, map[]);
    assert scans[0..] == scans;
  }
}
