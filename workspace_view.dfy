/**
 * The workspace component: what it derives from the tracked reports (the sidebar entries,
 * the active report and file, the panel and top-bar states) and its own state (pinned
 * snippets and whether the upload modal is open).
 */
module WorkspaceView {
  import opened Wrappers
  import opened Json
  import Lists
  import opened Shared
  import opened ReportTracker
  import FileListSidebar
  import ResultsDashboard

  // ---------------------------------------------------------------------------
  // Reports as sidebar entries
  // ---------------------------------------------------------------------------

  /** `mapStatusToSidebar`. */
  function MapStatusToSidebar(status: ReportStatus): (s: string)
    ensures s == "processed" <==> status == Results
    ensures s == "processing" <==> status == Processing
    ensures s == "failed" <==> status.Error?
  {
    if status == Results then "processed"
    else if status == Processing then "processing"
    else "failed"
  }

  /** The sidebar badge always names the report's own status. */
  lemma BadgeShowsReportStatus(status: ReportStatus)
    ensures FileListSidebar.StatusBadge(MapStatusToSidebar(status)).caption ==
      match status
      case Processing => "Processing"
      case Results => "Processed"
      case Error => "Failed"
  {
  }

  /** `report.data?.all_companies?.length ?? 0`. */
  function EvidenceCount(data: Json): (n: nat)
    ensures data.JObj? && "all_companies" in data.fields && data.fields["all_companies"].JArr? ==>
      n == |data.fields["all_companies"].items|
    ensures !data.JObj? || "all_companies" !in data.fields ==> n == 0
  {
    Length(Get(Some(data), "all_companies")).GetOr(0)
  }

  /** `Math.abs(report.data?.portfolio_impact_score ?? 0)` for numbers, booleans and nullish values. */
  function Importance(data: Json): (x: real)
    ensures x >= 0.0
    ensures Get(Some(data), "portfolio_impact_score").Some? && Get(Some(data), "portfolio_impact_score").value.JNum? ==>
      x == Abs(Get(Some(data), "portfolio_impact_score").value.n)
    ensures Get(Some(data), "portfolio_impact_score").None? ==> x == 0.0
  {
    match Coalesce(Get(Some(data), "portfolio_impact_score"), JNum(0.0))
    case JNum(n) => Abs(n)
    case JBool(b) => if b then 1.0 else 0.0
    case _ => 0.0
  }

  function Abs(x: real): real {
    if x < 0.0 then -x else x
  }

  /** One sidebar entry; `timestampOf` stands for `new Date(uploadedAt).getTime()`. */
  function ToSidebarFile(r: ReportRecord, timestampOf: Json -> int): (f: FileListSidebar.SidebarFile)
    ensures f.id == r.id && f.name == r.name && f.kind == "report"
    ensures f.status == MapStatusToSidebar(r.status)
  {
    FileListSidebar.SidebarFile(
      r.id, r.name, "report", timestampOf(r.uploadedAt),
      MapStatusToSidebar(r.status), EvidenceCount(r.data), Importance(r.data))
  }

  /** `filesForSidebar`: one entry per report, in the same order. */
  function FilesForSidebar(reports: seq<ReportRecord>, timestampOf: Json -> int): (files: seq<FileListSidebar.SidebarFile>)
    ensures |files| == |reports|
    ensures forall i :: 0 <= i < |reports| ==> files[i] == ToSidebarFile(reports[i], timestampOf)
  {
    seq(|reports|, i requires 0 <= i < |reports| => ToSidebarFile(reports[i], timestampOf))
  }

  // ---------------------------------------------------------------------------
  // The active report and what the workspace shows
  // ---------------------------------------------------------------------------

  /** The lookup predicate `report => report.id === id`. */
  function ReportWithId(id: string): ReportRecord -> bool {
    (rec: ReportRecord) => rec.id == id
  }

  /** The lookup predicate `file => file.id === id`. */
  function FileWithId(id: string): FileListSidebar.SidebarFile -> bool {
    (f: FileListSidebar.SidebarFile) => f.id == id
  }

  /** `reports.find(r => r.id === activeReportId) ?? null`. */
  function ActiveReport(reports: seq<ReportRecord>, activeReportId: Option<string>): (r: Option<ReportRecord>)
    ensures r.Some? <==> activeReportId.Some? && exists i :: 0 <= i < |reports| && reports[i].id == activeReportId.value
    ensures r.Some? ==> r.value in reports && r.value.id == activeReportId.value
    ensures r.Some? ==>
      exists j :: 0 <= j < |reports| && r.value == reports[j] && forall k :: 0 <= k < j ==> reports[k].id != activeReportId.value
  {
    if activeReportId.None? then None
    else Lists.Find(reports, ReportWithId(activeReportId.value))
  }

  /** `filesForSidebar.find(f => f.id === activeReportId) ?? null`. */
  function ActiveFile(files: seq<FileListSidebar.SidebarFile>, activeReportId: Option<string>): Option<FileListSidebar.SidebarFile> {
    if activeReportId.None? then None
    else Lists.Find(files, FileWithId(activeReportId.value))
  }

  /** The active file is the sidebar entry of the active report: the two lookups agree. */
  lemma ActiveFileOfActiveReport(reports: seq<ReportRecord>, timestampOf: Json -> int, activeReportId: Option<string>)
    ensures ActiveFile(FilesForSidebar(reports, timestampOf), activeReportId) ==
      match ActiveReport(reports, activeReportId)
      case None => None
      case Some(r) => Some(ToSidebarFile(r, timestampOf))
  {
    if activeReportId.Some? {
      var id := activeReportId.value;
      Lists.FindIndexAgrees(reports, FilesForSidebar(reports, timestampOf), ReportWithId(id), FileWithId(id));
    }
  }

  /** `workspaceState`. */
  datatype PanelState = Empty | ProcessingState | ResultsState | ErrorState

  function WorkspaceState(active: Option<ReportRecord>): (s: PanelState)
    ensures s == Empty <==> active.None?
    ensures s == ProcessingState <==> active.Some? && active.value.status == Processing
    ensures s == ResultsState <==> active.Some? && active.value.status == Results
    ensures s == ErrorState <==> active.Some? && active.value.status.Error?
  {
    if active.None? then Empty
    else if active.value.status == Processing then ProcessingState
    else if active.value.status == Results then ResultsState
    else ErrorState
  }

  /** `topBarState`: without an active report it shows results as soon as any report exists. */
  function TopBarState(reports: seq<ReportRecord>, active: Option<ReportRecord>): (s: PanelState)
    ensures active.Some? ==> s == WorkspaceState(active)
    ensures active.None? ==> (s == ResultsState <==> |reports| > 0) && (s == Empty <==> |reports| == 0)
  {
    if active.Some? then WorkspaceState(active)
    else if |reports| > 0 then ResultsState
    else Empty
  }

  const FallbackError: Json := JStr("Analysis failed. Please start a new analysis.")

  /** What `renderMainPanel` renders; `data` is the dashboard's `data` prop (`None` when not passed). */
  datatype MainPanel =
    | ProcessingView
    | Dashboard(activeFile: Option<FileListSidebar.SidebarFile>, data: Option<Json>)
    | ErrorMessage(text: Json)
    | UploadZone(hasReports: bool)

  /** The main panel, with the active report's results passed to the dashboard. */
  function RenderMainPanel(reports: seq<ReportRecord>, timestampOf: Json -> int, activeReportId: Option<string>): MainPanel {
    var active := ActiveReport(reports, activeReportId);
    match WorkspaceState(active)
    case ProcessingState => ProcessingView
    case ResultsState => Dashboard(ActiveFile(FilesForSidebar(reports, timestampOf), activeReportId), Some(active.value.data))
    case ErrorState => ErrorMessage(OrElse(active.value.error, FallbackError))
    case Empty => UploadZone(|reports| > 0)
  }

  /**
   * The main panel follows the active report: the upload zone when none is active, the
   * dashboard of its own sidebar entry once it has results, and its error text (or the
   * fallback when that text is missing or empty) once it failed.
   */
  lemma MainPanelFollowsActiveReport(reports: seq<ReportRecord>, timestampOf: Json -> int, activeReportId: Option<string>)
    ensures var panel := RenderMainPanel(reports, timestampOf, activeReportId);
      match ActiveReport(reports, activeReportId)
      case None => panel == UploadZone(|reports| > 0)
      case Some(r) =>
        && (r.status == Processing ==> panel == ProcessingView)
        && (r.status == Results ==> panel == Dashboard(Some(ToSidebarFile(r, timestampOf)), Some(r.data)))
        && (r.status == Error && r.error.Some? && Truthy(r.error.value) ==> panel == ErrorMessage(r.error.value))
        && (r.status == Error && (r.error.None? || !Truthy(r.error.value)) ==> panel == ErrorMessage(FallbackError))
  {
    ActiveFileOfActiveReport(reports, timestampOf, activeReportId);
  }

  /**
   * `renderMainPanel` as written: the dashboard element gets `reports` and `activeFile`,
   * which it does not declare, and never a `data` prop.
   */
  function RenderMainPanelAsWritten(reports: seq<ReportRecord>, timestampOf: Json -> int, activeReportId: Option<string>): MainPanel {
    match RenderMainPanel(reports, timestampOf, activeReportId)
    case Dashboard(activeFile, _) => Dashboard(activeFile, None)
    case panel => panel
  }

  /** As written, the results panel can only ever show the dashboard's loading skeleton. */
  lemma ResultsPanelAsWrittenIsSkeleton(reports: seq<ReportRecord>, timestampOf: Json -> int, activeReportId: Option<string>)
    requires RenderMainPanelAsWritten(reports, timestampOf, activeReportId).Dashboard?
    ensures ResultsDashboard.Render(RenderMainPanelAsWritten(reports, timestampOf, activeReportId).data) == ResultsDashboard.Skeleton
  {
  }

  /**
   * Any report that completed and is active shows its results with the data passed on, and
   * the loading skeleton as written.
   */
  lemma CompletedReportAsWrittenIsSkeleton(rec: ReportRecord, payload: Json, timestampOf: Json -> int)
    ensures var done := Apply(rec, ToResults(payload));
      && ResultsDashboard.Render(RenderMainPanel([done], timestampOf, Some(rec.id)).data) != ResultsDashboard.Skeleton
      && ResultsDashboard.Render(RenderMainPanelAsWritten([done], timestampOf, Some(rec.id)).data) == ResultsDashboard.Skeleton
  {
    var done := Apply(rec, ToResults(payload));
    assert [done][0].id == rec.id;
    MainPanelFollowsActiveReport([done], timestampOf, Some(rec.id));
    assert ActiveReport([done], Some(rec.id)) == Some(done);
    var passed := RenderMainPanel([done], timestampOf, Some(rec.id)).data;
    assert passed == Some(done.data) && Truthy(done.data);
    assert RenderMainPanelAsWritten([done], timestampOf, Some(rec.id)).data == None;
  }

  /** An input that shows it: a report whose analysis completed still shows the skeleton. */
  lemma CompletedReportAsWrittenShowsSkeleton(timestampOf: Json -> int)
    ensures var created := NewRecord(FileInfo("a.pdf", 1), "r1", "2025-01-01T00:00:00Z");
      var done := Apply(created, ToResults(JObj(map["portfolio_impact_score" := JNum(1.0)])));
      && ResultsDashboard.Render(RenderMainPanel([done], timestampOf, Some("r1")).data) != ResultsDashboard.Skeleton
      && ResultsDashboard.Render(RenderMainPanelAsWritten([done], timestampOf, Some("r1")).data) == ResultsDashboard.Skeleton
  {
    var created := NewRecord(FileInfo("a.pdf", 1), "r1", "2025-01-01T00:00:00Z");
    CompletedReportAsWrittenIsSkeleton(created, JObj(map["portfolio_impact_score" := JNum(1.0)]), timestampOf);
  }

  /**
   * With the active report's data passed on, a report that completed shows its results:
   * never the skeleton, and the file name the tracker recorded (or "N/A" when that is empty).
   */
  lemma CompletedReportShowsResults(rec: ReportRecord, payload: Json)
    ensures var done := Apply(rec, ToResults(payload));
      var rendering := ResultsDashboard.Render(Some(done.data));
      && rendering != ResultsDashboard.Skeleton
      && (rendering.Shown? ==>
            rendering.view.fileName == OrElse(Some(Coalesce(Get(Some(payload), "fileName"), JStr(rec.name))), JStr("N/A")))
  {
    var done := Apply(rec, ToResults(payload));
    assert "fileName" in done.data.fields;
  }

  /**
   * A report whose upload failed shows the thrown error's message, or the upload fallback
   * when a non-Error was thrown; an Error with an empty message shows the panel's own fallback.
   */
  lemma FailedUploadShowsItsMessage(s: Submission, timestampOf: Json -> int)
    requires s.outcome.UploadFailed?
    ensures var msg := MessageOr(s.outcome.thrown, "Failed to upload file.");
      RenderMainPanel([SettledRecord(s)], timestampOf, Some(s.id)) ==
        ErrorMessage(if msg == "" then FallbackError else JStr(msg))
  {
    assert [SettledRecord(s)][0].id == s.id;
  }

  // ---------------------------------------------------------------------------
  // Pinned snippets and the upload modal
  // ---------------------------------------------------------------------------

  /** Some pinned snippet has this id. */
  predicate IsPinned(pinned: seq<Snippet>, id: string) {
    exists i :: 0 <= i < |pinned| && pinned[i].id == id
  }

  /** The test `s => s.id === id`. */
  function SnippetWithId(id: string): Snippet -> bool {
    (s: Snippet) => s.id == id
  }

  /** The test `s => s.id !== id`. */
  function SnippetNotWithId(id: string): Snippet -> bool {
    (s: Snippet) => s.id != id
  }

  /** `handlePinSnippet`: drop every snippet with the same id if one is pinned, else append it. */
  function TogglePin(prev: seq<Snippet>, snippet: Snippet): (r: seq<Snippet>)
    ensures IsPinned(r, snippet.id) <==> !IsPinned(prev, snippet.id)
    ensures forall x: Snippet :: x.id != snippet.id ==> multiset(r)[x] == multiset(prev)[x]
    ensures !IsPinned(prev, snippet.id) ==> r == prev + [snippet]
    ensures IsPinned(prev, snippet.id) ==> r == Lists.Filter(prev, SnippetNotWithId(snippet.id))
  {
    if Lists.Find(prev, SnippetWithId(snippet.id)).Some? then
      Lists.FilterCounts(prev, SnippetNotWithId(snippet.id));
      Lists.Filter(prev, SnippetNotWithId(snippet.id))
    else
      var r := prev + [snippet];
      assert r[|prev|] == snippet;
      r
  }

  /** Pinning a snippet and then unpinning it restores the board exactly. */
  lemma PinThenUnpinRestores(prev: seq<Snippet>, snippet: Snippet)
    requires !IsPinned(prev, snippet.id)
    ensures TogglePin(TogglePin(prev, snippet), snippet) == prev
  {
    Lists.FilterAppend(prev, snippet, SnippetNotWithId(snippet.id));
    Lists.FilterAll(prev, SnippetNotWithId(snippet.id));
  }

  /**
   * Unpinning keeps the other pins in their order: the new board is the subsequence of the
   * old one made of exactly the snippets with another id.
   */
  lemma UnpinKeepsOrder(prev: seq<Snippet>, snippet: Snippet)
    requires IsPinned(prev, snippet.id)
    ensures exists idx :: Lists.PicksPassing(TogglePin(prev, snippet), prev, SnippetNotWithId(snippet.id), idx)
  {
    var kept := Lists.Filter(prev, SnippetNotWithId(snippet.id));
    assert TogglePin(prev, snippet) == kept;
    Lists.FilterKeepsOrder(prev, SnippetNotWithId(snippet.id));
    var idx :| Lists.PicksPassing(kept, prev, SnippetNotWithId(snippet.id), idx);
  }

  /** The workspace's own state. */
  class WorkspaceView {
    var pinnedSnippets: seq<Snippet>
    var uploadModalOpen: bool

    constructor ()
      ensures pinnedSnippets == [] && !uploadModalOpen
    {
      pinnedSnippets := [];
      uploadModalOpen := false;
    }

    /** `handlePinSnippet`, also the chat's "remove snippet" callback. */
    method PinSnippet(snippet: Snippet)
      modifies this
      ensures pinnedSnippets == TogglePin(old(pinnedSnippets), snippet)
      ensures uploadModalOpen == old(uploadModalOpen)
    {
      pinnedSnippets := TogglePin(pinnedSnippets, snippet);
    }

    /** The upload buttons and the modal's `onOpenChange`. */
    method SetUploadModalOpen(open: bool)
      modifies this
      ensures uploadModalOpen == open && pinnedSnippets == old(pinnedSnippets)
    {
      uploadModalOpen := open;
    }

    /** The top bar's "new analysis": clear the active report, then open the upload modal. */
    method NewAnalysis(tracker: Tracker)
      modifies this, tracker
      ensures tracker.activeReportId == None && uploadModalOpen
      ensures tracker.reports == old(tracker.reports) && tracker.polling == old(tracker.polling)
      ensures pinnedSnippets == old(pinnedSnippets)
    {
      tracker.HandleNewAnalysis();
      uploadModalOpen := true;
    }
  }

  /** After "new analysis" the workspace shows the upload zone, whatever was active before. */
  lemma NewAnalysisShowsUploadZone(reports: seq<ReportRecord>, timestampOf: Json -> int)
    ensures RenderMainPanel(reports, timestampOf, None) == UploadZone(|reports| > 0)
  {
  }
}
