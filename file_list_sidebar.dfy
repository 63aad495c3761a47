/**
 * The file list in the workspace sidebar: search, status filter and sort over the files,
 * the status badge, the relative upload time, and the buttons that change the filter and sort.
 */
module FileListSidebar {
  import opened Wrappers
  import Text
  import Lists

  /** A sidebar entry; `timestamp` is the upload time in milliseconds since the epoch. */
  datatype SidebarFile = SidebarFile(
    id: string,
    name: string,
    kind: string,
    timestamp: int,
    status: string,
    evidenceCount: nat,
    importance: real)

  datatype SortKey = ByDate | ByImportance

  // ---------------------------------------------------------------------------
  // Search, filter and sort
  // ---------------------------------------------------------------------------

  /** `file.name.toLowerCase().includes(searchQuery.toLowerCase())`. */
  predicate NameMatches(f: SidebarFile, query: string) {
    Text.Contains(Text.Lower(f.name), Text.Lower(query))
  }

  /** `!filterStatus || file.status === filterStatus`. */
  predicate StatusMatches(f: SidebarFile, filterStatus: Option<string>) {
    filterStatus.None? || filterStatus.value == "" || f.status == filterStatus.value
  }

  /** The comparator `b.timestamp - a.timestamp` (or `b.importance - a.importance`): larger first. */
  function Before(sortBy: SortKey): (SidebarFile, SidebarFile) -> bool {
    match sortBy
    case ByDate => (a: SidebarFile, b: SidebarFile) => a.timestamp >= b.timestamp
    case ByImportance => (a: SidebarFile, b: SidebarFile) => a.importance >= b.importance
  }

  /** The name test as the predicate `filter` receives. */
  function NameFilter(query: string): SidebarFile -> bool {
    (f: SidebarFile) => NameMatches(f, query)
  }

  /** The status test as the predicate `filter` receives. */
  function StatusFilter(filterStatus: Option<string>): SidebarFile -> bool {
    (f: SidebarFile) => StatusMatches(f, filterStatus)
  }

  /** The shown files: filtered by name, then by status, then sorted. */
  function FilteredFiles(files: seq<SidebarFile>, query: string, filterStatus: Option<string>, sortBy: SortKey): seq<SidebarFile> {
    var byName := Lists.Filter(files, NameFilter(query));
    var byStatus := Lists.Filter(byName, StatusFilter(filterStatus));
    Lists.Sort(byStatus, Before(sortBy))
  }

  /** Larger keys first: non-increasing timestamps by date, non-increasing importance otherwise. */
  ghost predicate NonIncreasing(s: seq<SidebarFile>, sortBy: SortKey) {
    match sortBy
    case ByDate => forall i, j :: 0 <= i < j < |s| ==> s[i].timestamp >= s[j].timestamp
    case ByImportance => forall i, j :: 0 <= i < j < |s| ==> s[i].importance >= s[j].importance
  }

  lemma BeforeIsTotalPreorder(sortBy: SortKey)
    ensures Lists.TotalPreorder(Before(sortBy))
  {
  }

  /**
   * Every shown file matches the query and the status filter; the shown files are exactly
   * the matching files, each as often as in the input; and they come largest key first.
   */
  lemma FilteredFilesSpec(files: seq<SidebarFile>, query: string, filterStatus: Option<string>, sortBy: SortKey)
    ensures var shown := FilteredFiles(files, query, filterStatus, sortBy);
      && (forall i :: 0 <= i < |shown| ==> NameMatches(shown[i], query) && StatusMatches(shown[i], filterStatus))
      && (forall f :: multiset(shown)[f] ==
            if NameMatches(f, query) && StatusMatches(f, filterStatus) then multiset(files)[f] else 0)
      && NonIncreasing(shown, sortBy)
  {
    var byName := Lists.Filter(files, NameFilter(query));
    var byStatus := Lists.Filter(byName, StatusFilter(filterStatus));
    var shown := Lists.Sort(byStatus, Before(sortBy));
    Lists.FilterCounts(files, NameFilter(query));
    Lists.FilterCounts(byName, StatusFilter(filterStatus));
    BeforeIsTotalPreorder(sortBy);
    Lists.SortSorted(byStatus, Before(sortBy));
    assert multiset(shown) == multiset(byStatus);
    SortedByBeforeIsNonIncreasing(shown, sortBy);
    forall f ensures multiset(shown)[f] ==
        if NameMatches(f, query) && StatusMatches(f, filterStatus) then multiset(files)[f] else 0
    {
      assert multiset(byStatus)[f] == if StatusFilter(filterStatus)(f) then multiset(byName)[f] else 0;
      assert multiset(byName)[f] == if NameFilter(query)(f) then multiset(files)[f] else 0;
    }
    forall i | 0 <= i < |shown| ensures NameMatches(shown[i], query) && StatusMatches(shown[i], filterStatus) {
      assert multiset(shown)[shown[i]] > 0;
    }
  }

  lemma SortedByBeforeIsNonIncreasing(s: seq<SidebarFile>, sortBy: SortKey)
    requires Lists.SortedBy(s, Before(sortBy))
    ensures NonIncreasing(s, sortBy)
  {
    match sortBy
    case ByDate =>
      forall i, j | 0 <= i < j < |s| ensures s[i].timestamp >= s[j].timestamp {
        assert Before(sortBy)(s[i], s[j]);
      }
    case ByImportance =>
      forall i, j | 0 <= i < j < |s| ensures s[i].importance >= s[j].importance {
        assert Before(sortBy)(s[i], s[j]);
      }
  }

  /** An empty query and no status filter show every file. */
  lemma EmptySearchShowsAll(files: seq<SidebarFile>, sortBy: SortKey)
    ensures multiset(FilteredFiles(files, "", None, sortBy)) == multiset(files)
  {
    forall f ensures NameMatches(f, "") {
      assert Text.OccursAt(Text.Lower(f.name), Text.Lower(""), 0);
    }
    FilteredFilesSpec(files, "", None, sortBy);
  }

  // ---------------------------------------------------------------------------
  // Badge and relative time
  // ---------------------------------------------------------------------------

  datatype Badge = Badge(background: string, textColor: string, caption: string)

  /** `variants[status] || variants.processed`. */
  function StatusBadge(status: string): (b: Badge)
    ensures status == "processing" ==> b.caption == "Processing"
    ensures status == "failed" ==> b.caption == "Failed"
    ensures status != "processing" && status != "failed" ==> b.caption == "Processed" && b.background == "bg-green-500/10"
    ensures b.caption == "Processed" <==> status != "processing" && status != "failed"
  {
    if status == "processing" then Badge("bg-yellow-500/10", "text-yellow-700", "Processing")
    else if status == "failed" then Badge("bg-red-500/10", "text-red-700", "Failed")
    else Badge("bg-green-500/10", "text-green-700", "Processed")
  }

  const HourMs: int := 3600000
  const DayMs: int := 86400000

  /** How long ago something happened, in the units the sidebar shows. */
  datatype RelativeAge = JustNow | HoursAgo(hours: int) | Yesterday | DaysAgo(days: int)

  /**
   * `hours = Math.floor(diff / 3600000)`, `days = Math.floor(diff / 86400000)`; the shown
   * unit is the largest whole number of hours (below a day) or days elapsed.
   */
  function AgeOf(diff: int): (a: RelativeAge)
    ensures a.JustNow? <==> diff < HourMs
    ensures a.HoursAgo? ==> 1 <= a.hours < 24 && a.hours * HourMs <= diff < (a.hours + 1) * HourMs
    ensures a.Yesterday? <==> DayMs <= diff < 2 * DayMs
    ensures a.DaysAgo? ==> a.days >= 2 && a.days * DayMs <= diff < (a.days + 1) * DayMs
  {
    // Dafny's `/` rounds toward negative infinity for a positive divisor, as Math.floor does.
    var hours := diff / HourMs;
    var days := diff / DayMs;
    if hours < 1 then JustNow
    else if hours < 24 then HoursAgo(hours)
    else if days == 1 then Yesterday
    else DaysAgo(days)
  }

  function AgeText(a: RelativeAge): string {
    match a
    case JustNow => "Just now"
    case HoursAgo(h) => Text.IntToString(h) + "h ago"
    case Yesterday => "Yesterday"
    case DaysAgo(d) => Text.IntToString(d) + "d ago"
  }

  /** `formatRelativeTime(date)` at clock time `now`. */
  function FormatRelativeTime(now: int, timestamp: int): string {
    AgeText(AgeOf(now - timestamp))
  }

  /** A timestamp in the future reads "Just now". */
  lemma FutureIsJustNow(now: int, timestamp: int)
    requires timestamp > now
    ensures FormatRelativeTime(now, timestamp) == "Just now"
  {
  }

  /** Different ages get different texts, so the text tells how long ago the upload was. */
  lemma AgeTextInjective(a: RelativeAge, b: RelativeAge)
    requires !a.HoursAgo? || a.hours >= 0
    requires !b.HoursAgo? || b.hours >= 0
    requires !a.DaysAgo? || a.days >= 0
    requires !b.DaysAgo? || b.days >= 0
    requires AgeText(a) == AgeText(b)
    ensures a == b
  {
    var t := AgeText(a);
    if a.HoursAgo? || a.DaysAgo? {
      var n := if a.HoursAgo? then a.hours else a.days;
      assert Text.IsDigit(t[0]) by { assert t[0] == Text.NatToString(n)[0]; }
    }
    if b.HoursAgo? || b.DaysAgo? {
      var n := if b.HoursAgo? then b.hours else b.days;
      assert Text.IsDigit(t[0]) by { assert t[0] == Text.NatToString(n)[0]; }
    }
    if (a.HoursAgo? || a.DaysAgo?) && (b.HoursAgo? || b.DaysAgo?) {
      var m := if a.HoursAgo? then a.hours else a.days;
      var n := if b.HoursAgo? then b.hours else b.days;
      var sm, sn := Text.NatToString(m), Text.NatToString(n);
      assert t[|t| - 5] == (if a.HoursAgo? then 'h' else 'd');
      assert t[|t| - 5] == (if b.HoursAgo? then 'h' else 'd');
      assert sm == t[..|t| - 5] == sn;
      Text.NatToStringInjective(m, n);
    }
  }

  // ---------------------------------------------------------------------------
  // Controls
  // ---------------------------------------------------------------------------

  /** `setFilterStatus(filterStatus === s ? null : s)`. */
  function PressedFilter(current: Option<string>, pressed: string): (r: Option<string>)
    ensures current == Some(pressed) ==> r == None
    ensures current != Some(pressed) ==> r == Some(pressed)
  {
    if current == Some(pressed) then None else Some(pressed)
  }

  /** `setSortBy(sortBy === "date" ? "importance" : "date")`. */
  function ToggledSort(sortBy: SortKey): (r: SortKey)
    ensures r != sortBy
  {
    match sortBy
    case ByDate => ByImportance
    case ByImportance => ByDate
  }

  /** The sidebar's own state: search text, status filter and sort key. */
  class SidebarControls {
    var searchQuery: string
    var filterStatus: Option<string>
    var sortBy: SortKey

    constructor ()
      ensures searchQuery == "" && filterStatus == None && sortBy == ByDate
    {
      searchQuery := "";
      filterStatus := None;
      sortBy := ByDate;
    }

    /** The files the list shows for the current controls. */
    function Shown(files: seq<SidebarFile>): seq<SidebarFile>
      reads this
    {
      FilteredFiles(files, searchQuery, filterStatus, sortBy)
    }

    method SetSearchQuery(query: string)
      modifies this
      ensures searchQuery == query && filterStatus == old(filterStatus) && sortBy == old(sortBy)
    {
      searchQuery := query;
    }

    /** A status button: pressing the active filter clears it, pressing another sets it. */
    method PressFilter(status: string)
      modifies this
      ensures filterStatus == PressedFilter(old(filterStatus), status)
      ensures searchQuery == old(searchQuery) && sortBy == old(sortBy)
    {
      filterStatus := if filterStatus == Some(status) then None else Some(status);
    }

    /** The sort button flips between date and importance. */
    method ToggleSort()
      modifies this
      ensures sortBy == ToggledSort(old(sortBy))
      ensures searchQuery == old(searchQuery) && filterStatus == old(filterStatus)
    {
      sortBy := if sortBy == ByDate then ByImportance else ByDate;
    }
  }

  /** Pressing the same status button twice from no filter returns to no filter; sorting flips back. */
  lemma ControlsAreInvolutions(status: string, sortBy: SortKey)
    ensures PressedFilter(PressedFilter(None, status), status) == None
    ensures ToggledSort(ToggledSort(sortBy)) == sortBy
  {
  }
}
