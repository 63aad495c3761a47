# Datathon2025 front end — a verified Dafny model

This project models the browser side of the Datathon2025 regulatory-impact analyser. A user
uploads regulatory documents. The workspace page tracks one *report record* per uploaded file and
polls the back end for each record's status until the record settles as "results" or "error". The
workspace shows the reports in a searchable, sortable sidebar, and its main panel shows the active
report as a processing screen, a results dashboard or an error message. Around it sit:

- the upload dialog and its file filter;
- the document viewer, with page navigation and keyboard shortcuts;
- the chat assistant, with simulated replies;
- the company table and the strategy panel.

Two older flows are modelled as well:
- the single-job home page (`app/page.tsx`);
- the legacy workspace page (`src/pages/Workspace.tsx`).

Each module models one source file:

| module | source file |
|---|---|
| `ReportTracker` | `Frontend/app/workspace/page.tsx` |
| `WorkspaceView` | `Frontend/components/workspace.tsx` |
| `FileListSidebar` | `Frontend/components/file-list-sidebar.tsx` |
| `UploadModal` | `Frontend/components/upload-modal.tsx` |
| `DocumentViewer` | `Frontend/components/document-viewer.tsx` |
| `KeyboardShortcuts` | `Frontend/hooks/use-keyboard-shortcuts.ts` |
| `ResultsDashboard` | `Frontend/components/results-dashboard.tsx` |
| `CompanyTable` | `Frontend/components/company-table.tsx` |
| `StrategyPanel` | `Frontend/components/strategy-panel.tsx` |
| `ChatAssistant` | `Frontend/components/chat-assistant.tsx` |
| `ProcessingUI` | `Frontend/components/processing-ui.tsx` |
| `SingleJobPage` | `Frontend/app/page.tsx` |
| `LegacyWorkspace` | `Frontend/src/pages/Workspace.tsx` |

Shared modules model the parts of the JavaScript runtime that the components rely on:
- `Json` models loosely typed values: truthiness, `?.`, `??`, `||`, spreading and `String()`.
- `Text` models strings: `toLowerCase`, `toUpperCase`, `includes`, `trim`, `parseInt`, and number formatting.
- `Lists` models `filter`, `find` and `sort`.
- `Shared` holds files, thrown values and snippets.
- `Wrappers` holds `Option`.

**How React state is modelled.** State that a component keeps in `useState` and changes with a
setter becomes a field of a class. Each event handler becomes a method with `modifies this`, and
its `ensures` gives the whole new state. Code that only computes, such as render decisions,
filters and formatting, becomes a function.

**Asynchronous code.** An `await` or a `setTimeout` callback is a separate method, called when
the awaited value arrives or the timer fires. The value arrives as a parameter, for example
`Tracker.UploadSettled(id, outcome, handle)` or `Tracker.Tick(id, outcome)`. Continuations that
are scheduled but have not yet run are kept as a first-in-first-out field of the class:
- `Chat.pending` for the chat's reply timers;
- `Home.pendingCompletions` for the home page's completion timers;
- `Workspace.scheduled` for the legacy page's completion timers.

**Handles and ids.** An interval handle is a positive integer, because `setInterval` never
returns 0, so a registered id is always truthy in the polling registry. Fresh report ids and the
current time are inputs to the model.

**Type mismatches in the source.** `app/page.tsx` passes `state`, `data` and `onUpload` to
`Workspace`. `app/workspace/page.tsx` passes `reports`, `activeReportId`, `onSelectReport`,
`onUpload` and `onNewAnalysis`, and only the second set is declared by `components/workspace.tsx`.
So the model takes the second page as the caller of `WorkspaceView`, and models `app/page.tsx`
only for its own state.

## Model

| member | source | states |
|---|---|---|
| ReportTracker.NewRecord | Frontend/app/workspace/page.tsx:102-108 | A new record carries the file's name and the fresh id, is "processing", and has `data` null and no error. |
| ReportTracker.Enriched | Frontend/app/workspace/page.tsx:36-53 | The enriched payload keeps every spread key of the payload. `fileName` and `uploadedAt` default to the record's own values when the payload lacks them or has them as null, and no other key is added. |
| ReportTracker.Apply | Frontend/app/workspace/page.tsx:32-77 | Settling keeps the id and the name and leaves the record non-processing. An error keeps the data and sets the message. Results set the enriched payload and take `uploadedAt` from it. |
| ReportTracker.ReplaceById | Frontend/app/workspace/page.tsx:33-56 | `prev.map(r => r.id === id ? … : r)`: the length, order, ids and names are kept. Exactly the records with that id are settled. |
| ReportTracker.SettledRecord | Frontend/app/workspace/page.tsx:100-131 | The record one submission leaves has the submission's id and the file's name. |
| ReportTracker.Prepended | Frontend/app/workspace/page.tsx:111-112 | A batch's records appear newest first: position i holds the settled record of submission n-1-i. |
| ReportTracker.Tracker.constructor | Frontend/app/workspace/page.tsx:10-14 | The tracker starts with no reports, no active report and no intervals. |
| ReportTracker.Tracker.StartPolling | Frontend/app/workspace/page.tsx:16-19 | An id that is already registered keeps its interval. Otherwise the new handle is registered. Reports and selection are unchanged, and the invariant holds: ids are unique, every registered id names a processing record, and a record has a payload iff its status is results. |
| ReportTracker.Tracker.Tick | Frontend/app/workspace/page.tsx:19-95 | One interval callback. The reports and registry become `TickReports` and `TickRegistry` of the outcome, the invariant is kept, and no record that had already settled changes. |
| ReportTracker.Tracker.BeginAnalysis | Frontend/app/workspace/page.tsx:101-113 | A processing record for the file is prepended and becomes active. The registry is unchanged. |
| ReportTracker.Tracker.UploadSettled | Frontend/app/workspace/page.tsx:114-131 | A successful upload registers polling for the id and leaves the reports alone. A failed upload marks the record "error" with the thrown message or "Failed to upload file." and registers nothing. |
| ReportTracker.Tracker.InitiateAnalysisForFile | Frontend/app/workspace/page.tsx:100-132 | One whole submission: its settled record is prepended, it becomes active, and its id is registered exactly when the upload succeeded. |
| ReportTracker.Tracker.HandleUpload | Frontend/app/workspace/page.tsx:134-140 | Files are submitted in order. The reports become the batch's records, newest first, in front of the old ones. The registry gains exactly the successful uploads, and the last file is active. |
| ReportTracker.Tracker.HandleNewAnalysis | Frontend/app/workspace/page.tsx:142-144 | Clears the active report only. Reports and polling are unchanged. |
| ReportTracker.Tracker.SelectReport | Frontend/app/workspace/page.tsx:158 | Makes the chosen id active, and changes nothing else. |
| ReportTracker.Tracker.Teardown | Frontend/app/workspace/page.tsx:146-151 | The unmount cleanup empties the registry and leaves the reports. |
| ReportTracker.SettlingKeepsInvariant | Frontend/app/workspace/page.tsx:57-58 | Settling a processing id keeps ids unique, every other registered id still names a processing record, and every record still has a payload iff it has results. |
| ReportTracker.SettleKeepsDataIffResults | Frontend/app/workspace/page.tsx:48-53 | A processing record without a payload gains one exactly when it settles with results. An error keeps it without one. |
| ReportTracker.BatchStep | Frontend/app/workspace/page.tsx:136-138 | Submitting one more file prepends its record and adds its registration if its upload succeeded. |
| ReportTracker.StartPollingIdempotent | Frontend/app/workspace/page.tsx:17 | A second `startPolling` for a registered id keeps the first handle. |
| ReportTracker.OtherStatusKeepsPolling | Frontend/app/workspace/page.tsx:22-77 | A status other than COMPLETE, FAILED or ERROR changes no record and keeps the interval. |
| ReportTracker.MissingStatusKeepsPolling | Frontend/app/workspace/page.tsx:22 | A missing or falsy status reads as "" and keeps polling. |
| ReportTracker.StatusCaseInsensitive | Frontend/app/workspace/page.tsx:22 | A status and its upper-cased form have the same effect. |
| ReportTracker.EmptyPayloadKeepsPolling | Frontend/app/workspace/page.tsx:25-30 | COMPLETE with any payload that is falsy or has no keys changes nothing and keeps the interval. |
| ReportTracker.EmptyPayloadCases | Frontend/app/workspace/page.tsx:25 | The payloads that count as empty are exactly `null`, the booleans, every number, `""`, `[]` and `{}`. |
| ReportTracker.CompleteSettlesWithPayload | Frontend/app/workspace/page.tsx:24-59 | COMPLETE with a payload gives "results" with the enriched payload, falling back to the record's file name and upload time, and deregisters the id. |
| ReportTracker.FailureSettlesWithMessage | Frontend/app/workspace/page.tsx:62-77 | FAILED or ERROR gives "error" with the server's truthy error or "Analysis failed.". The data is kept and the id is deregistered. |
| ReportTracker.ExceptionSettlesWithMessage | Frontend/app/workspace/page.tsx:78-94 | A thrown status request gives "error" with the Error's message or "Unknown error during analysis.", and deregisters the id. |
| ReportTracker.TickIsolatesOtherReports | Frontend/app/workspace/page.tsx:33-56 | A tick changes no record with another id, and keeps the list's length. |
| ReportTracker.TickNeverReopens | Frontend/app/workspace/page.tsx:19-95 | In a valid state a tick never changes a settled record and never makes any record "processing" again. |
| ReportTracker.FailedUploadNeverPolls | Frontend/app/workspace/page.tsx:118-131 | A failed upload leaves an "error" record with the thrown message and null data, and registers no interval. |
| ReportTracker.RegisteredOnlySucceeded | Frontend/app/workspace/page.tsx:114-117 | Every id a batch registers belongs to one of its submissions whose upload succeeded. |
| WorkspaceView.MapStatusToSidebar | Frontend/components/workspace.tsx:26-30 | "processed" iff results, "processing" iff processing, "failed" iff error. |
| WorkspaceView.BadgeShowsReportStatus | Frontend/components/workspace.tsx:72 | The sidebar badge of a report shows "Processed", "Processing" or "Failed" according to its status. |
| WorkspaceView.EvidenceCount | Frontend/components/workspace.tsx:73 | The evidence count is the length of `data.all_companies` when that is an array, and 0 when the field is absent. |
| WorkspaceView.Importance | Frontend/components/workspace.tsx:74 | The importance is never negative. It is `|score|` for a numeric score and 0 when the score is absent. |
| WorkspaceView.ToSidebarFile | Frontend/components/workspace.tsx:67-75 | A sidebar file keeps the report's id and name, has kind "report", and has the mapped status. |
| WorkspaceView.FilesForSidebar | Frontend/components/workspace.tsx:66-76 | One sidebar file per report, in the same order. |
| WorkspaceView.ActiveReport | Frontend/components/workspace.tsx:78 | There is an active report iff some report has the active id, and it is the first such report. |
| WorkspaceView.ActiveFileOfActiveReport | Frontend/components/workspace.tsx:78-79 | The active sidebar file is exactly the sidebar file of the active report. |
| WorkspaceView.WorkspaceState | Frontend/components/workspace.tsx:81-86 | "empty" iff there is no active report. Otherwise the state follows the active report's status, both ways. |
| WorkspaceView.TopBarState | Frontend/components/workspace.tsx:90 | With an active report the top bar shows the workspace state. Otherwise it shows "results" iff there are reports, and "empty" iff there are none. |
| WorkspaceView.MainPanelFollowsActiveReport | Frontend/components/workspace.tsx:99-115 | The main panel shows processing, dashboard, error message or upload zone exactly as the active report is processing, results, error or absent. The error text is the report's truthy error or the fallback sentence. |
| WorkspaceView.ResultsPanelAsWrittenIsSkeleton | Frontend/components/workspace.tsx:104 | As written, the dashboard is given no `data`, so it always renders its loading skeleton. |
| WorkspaceView.CompletedReportAsWrittenIsSkeleton | Frontend/components/workspace.tsx:104 | Any active report that completed shows results when its data is passed on, but the skeleton as written. |
| WorkspaceView.CompletedReportAsWrittenShowsSkeleton | Frontend/components/workspace.tsx:104 | A concrete report that completed with a payload still shows the skeleton as written. |
| WorkspaceView.CompletedReportShowsResults | Frontend/components/workspace.tsx:99-115 | With the report's data passed on, a completed report never shows the skeleton. Its dashboard names the file from the payload or the record. |
| WorkspaceView.FailedUploadShowsItsMessage | Frontend/components/workspace.tsx:105-110 | A report whose upload failed shows the thrown Error's message, or "Failed to upload file." for any other thrown value. An empty message shows the fallback sentence. |
| WorkspaceView.TogglePin | Frontend/components/workspace.tsx:92-97 | After a toggle the snippet's id is pinned iff it was not before. Snippets with other ids keep their counts. A new snippet is appended at the end, and an unpin is the `filter` that drops that id. |
| WorkspaceView.UnpinKeepsOrder | Frontend/components/workspace.tsx:92-96 | Unpinning leaves exactly the snippets with other ids, in their old order. |
| WorkspaceView.PinThenUnpinRestores | Frontend/components/workspace.tsx:92-97 | Pinning and then unpinning a snippet restores the list. |
| WorkspaceView.WorkspaceView.constructor | Frontend/components/workspace.tsx:62-64 | No snippets are pinned and the upload dialog is closed. |
| WorkspaceView.WorkspaceView.PinSnippet | Frontend/components/workspace.tsx:92-97 | The pinned list becomes `TogglePin` of the old list. |
| WorkspaceView.WorkspaceView.SetUploadModalOpen | Frontend/components/workspace.tsx:113 | Sets whether the upload dialog is open, and changes nothing else. |
| WorkspaceView.WorkspaceView.NewAnalysis | Frontend/components/workspace.tsx:120-123 | Clears the tracker's active report and opens the upload dialog. Reports, polling and pins are kept. |
| WorkspaceView.NewAnalysisShowsUploadZone | Frontend/components/workspace.tsx:111-113 | With no active report the main panel is the upload zone, told whether reports exist. |
| FileListSidebar.FilteredFilesSpec | Frontend/components/file-list-sidebar.tsx:31-37 | The shown files are exactly the matching ones, as a multiset, and are ordered by descending date or importance. |
| FileListSidebar.BeforeIsTotalPreorder | Frontend/components/file-list-sidebar.tsx:34-37 | The sort comparator is a total preorder for both sort keys. |
| FileListSidebar.EmptySearchShowsAll | Frontend/components/file-list-sidebar.tsx:32-33 | An empty query with no status filter shows every file. |
| FileListSidebar.StatusBadge | Frontend/components/file-list-sidebar.tsx:39-45 | "Processing" and "Failed" badges for those statuses. Any other status falls back to the green "Processed" badge, and "Processed" appears iff the status is neither. |
| FileListSidebar.AgeOf | Frontend/components/file-list-sidebar.tsx:51-60 | "Just now" iff the age is under an hour. The hours and days shown are the floor of the age, and "Yesterday" iff the age is one to two days. |
| FileListSidebar.FutureIsJustNow | Frontend/components/file-list-sidebar.tsx:53-57 | A timestamp in the future reads "Just now". |
| FileListSidebar.AgeTextInjective | Frontend/components/file-list-sidebar.tsx:57-60 | Different ages give different texts. |
| FileListSidebar.PressedFilter | Frontend/components/file-list-sidebar.tsx:93-99 | Pressing the active filter clears it. Any other press selects that status. |
| FileListSidebar.ToggledSort | Frontend/components/file-list-sidebar.tsx:105 | The sort button always switches the key. |
| FileListSidebar.ControlsAreInvolutions | Frontend/components/file-list-sidebar.tsx:93-105 | Pressing a filter twice, or the sort button twice, restores the control. |
| FileListSidebar.SidebarControls.constructor | Frontend/components/file-list-sidebar.tsx:27-29 | Empty search, no filter, sorted by date. |
| FileListSidebar.SidebarControls.SetSearchQuery | Frontend/components/file-list-sidebar.tsx:85 | Replaces the query, and keeps the filter and the sort. |
| FileListSidebar.SidebarControls.PressFilter | Frontend/components/file-list-sidebar.tsx:93-99 | The filter becomes `PressedFilter` of the old one. Query and sort are kept. |
| FileListSidebar.SidebarControls.ToggleSort | Frontend/components/file-list-sidebar.tsx:105 | The sort key switches. Query and filter are kept. |
| UploadModal.LastSegment | Frontend/components/upload-modal.tsx:40 | `split(".").pop()`: a dot-free suffix of the name, preceded by a dot unless it is the whole name. |
| UploadModal.LastSegmentAfterDot | Frontend/components/upload-modal.tsx:40 | For `base.ext` with a dot-free ext, the last segment is ext. |
| UploadModal.UpperCaseExtensionAccepted | Frontend/components/upload-modal.tsx:40-41 | A ".PDF" file within 50 MB is accepted. |
| UploadModal.DoubleExtensionRejected | Frontend/components/upload-modal.tsx:40-41 | "x.pdf.exe" is rejected whatever its size. |
| UploadModal.DotlessNameIsItsOwnExtension | Frontend/components/upload-modal.tsx:40 | A name without a dot is its own extension, so a file named "pdf" passes the type check. |
| UploadModal.WithoutIndex | Frontend/components/upload-modal.tsx:53 | Removing index i drops exactly that element. An index out of range changes nothing. |
| UploadModal.DropKeepsExactlyAccepted | Frontend/components/upload-modal.tsx:39-42 | A drop keeps every accepted file with its multiplicity, and no other file. |
| UploadModal.UploadDialog.constructor | Frontend/components/upload-modal.tsx:17-18 | No drag is in progress and no files are selected. |
| UploadModal.UploadDialog.HandleDrag | Frontend/components/upload-modal.tsx:24-32 | dragenter and dragover activate, dragleave deactivates, and other events change nothing. |
| UploadModal.UploadDialog.HandleDrop | Frontend/components/upload-modal.tsx:34-45 | Deactivates the drag and appends the accepted dropped files in order. |
| UploadModal.UploadDialog.HandleFileSelect | Frontend/components/upload-modal.tsx:47-50 | Appends every picked file, unfiltered. |
| UploadModal.UploadDialog.RemoveFile | Frontend/components/upload-modal.tsx:52-54 | The selection loses exactly the file at the index. |
| UploadModal.UploadDialog.HandleUpload | Frontend/components/upload-modal.tsx:56-62 | With files: hands them all over, clears the selection and closes the workspace's dialog. Without files nothing happens. |
| KeyboardShortcuts.HandleKeyDown | Frontend/hooks/use-keyboard-shortcuts.ts:16-28 | The loop fires exactly `Fired`, the matching shortcuts in order, and prevents the default iff one fired. |
| KeyboardShortcuts.FiredAreExactlyTheMatching | Frontend/hooks/use-keyboard-shortcuts.ts:17-27 | Each shortcut fires as often as it occurs iff it matches. Nothing fires iff none matches. |
| KeyboardShortcuts.KeyCaseInsensitive | Frontend/hooks/use-keyboard-shortcuts.ts:18 | Matching ignores the case of the key on both sides. |
| KeyboardShortcuts.CtrlMetaInterchangeable | Frontend/hooks/use-keyboard-shortcuts.ts:19-20 | A ctrl or meta shortcut accepts either modifier and requires one of them. |
| KeyboardShortcuts.PlainShortcutIgnoresModifiedPress | Frontend/hooks/use-keyboard-shortcuts.ts:20 | A shortcut without ctrl or meta never fires on a ctrl or meta press. |
| KeyboardShortcuts.ShiftAndAltExact | Frontend/hooks/use-keyboard-shortcuts.ts:21-22 | A match has exactly the shortcut's shift and alt state. |
| DocumentViewer.PrevPage | Frontend/components/document-viewer.tsx:133 | One page back, never below 1. |
| DocumentViewer.NextPage | Frontend/components/document-viewer.tsx:151 | One page forward, never above 12. |
| DocumentViewer.TypedPage | Frontend/components/document-viewer.tsx:144-146 | A typed page is always clamped into 1..12. |
| DocumentViewer.TypedPageInRange | Frontend/components/document-viewer.tsx:145 | Typing an in-range page number goes to that page. |
| DocumentViewer.TypedPageOutOfRange | Frontend/components/document-viewer.tsx:145 | Unparsable input, 0 or a negative number go to page 1, and a number of 12 or more goes to page 12. |
| DocumentViewer.StepsStayInRange | Frontend/components/document-viewer.tsx:93-97 | Steps stay within 1..12. Back undoes forward, and forward undoes back, away from the ends. |
| DocumentViewer.FiredByKey | Frontend/components/document-viewer.tsx:83-103 | At most one of the viewer's four shortcuts fires for any key press. |
| DocumentViewer.RunOneMore | Frontend/components/document-viewer.tsx:83-103 | Running one more callback applies its step to the state so far, against the render's snapshot. |
| DocumentViewer.Actions | Frontend/components/document-viewer.tsx:83-103 | The fired shortcuts' callbacks, in order. |
| DocumentViewer.RunCallbacks | Frontend/hooks/use-keyboard-shortcuts.ts:17-27 | Running the fired callbacks gives `RunActions` of them and the highlight calls they make. The page stays within 1..12. |
| DocumentViewer.Viewer.constructor | Frontend/components/document-viewer.tsx:30-33 | Page 1, empty search and selection, search hidden. |
| DocumentViewer.Viewer.HandleKeyDown | Frontend/components/document-viewer.tsx:83-103 | A key press applies the callbacks of the matching shortcuts and reports their highlight calls. It prevents the default iff a shortcut matched, and keeps the page in range. |
| DocumentViewer.Viewer.PreviousPage | Frontend/components/document-viewer.tsx:133 | The page becomes `PrevPage` of the old page. Nothing else changes. |
| DocumentViewer.Viewer.NextPageButton | Frontend/components/document-viewer.tsx:151 | The page becomes `NextPage` of the old page. Nothing else changes. |
| DocumentViewer.Viewer.TypePage | Frontend/components/document-viewer.tsx:144-146 | The page becomes `TypedPage` of the input. Nothing else changes. |
| DocumentViewer.Viewer.SetSearchQuery | Frontend/components/document-viewer.tsx:183 | Replaces the search query, and nothing else. |
| DocumentViewer.Viewer.HandleTextSelection | Frontend/components/document-viewer.tsx:112-117 | A non-empty selection replaces the selected text. An empty one keeps it. |
| DocumentViewer.Viewer.DismissSelection | Frontend/components/document-viewer.tsx:264 | Clears the selected text, and nothing else. |
| DocumentViewer.KeyFFiresAlone | Frontend/components/document-viewer.tsx:83-90 | An unmodified "f" or "F" fires the search shortcut and no other. |
| DocumentViewer.ArrowLeftFiresAlone | Frontend/components/document-viewer.tsx:91-94 | An unmodified left arrow fires its own shortcut and no other. |
| DocumentViewer.ArrowRightFiresAlone | Frontend/components/document-viewer.tsx:95-98 | An unmodified right arrow fires its own shortcut and no other. |
| DocumentViewer.KeyFTogglesSearch | Frontend/components/document-viewer.tsx:84-90 | An unmodified "f" or "F" flips the search bar and leaves the page. |
| DocumentViewer.ArrowLeftTurnsBack | Frontend/components/document-viewer.tsx:91-94 | The left arrow moves one page back, never below page 1. |
| DocumentViewer.ArrowRightTurnsForward | Frontend/components/document-viewer.tsx:95-98 | The right arrow moves one page forward, never past page 12. |
| DocumentViewer.ModifiedKeysDoNothing | Frontend/components/document-viewer.tsx:83-103 | No viewer shortcut fires while ctrl or meta is held. |
| DocumentViewer.PinLabel | Frontend/components/document-viewer.tsx:239 | "Pinned" iff the chunk's id is pinned, "Pin" otherwise. |
| DocumentViewer.PinClickFlipsLabel | Frontend/components/document-viewer.tsx:235-239 | Clicking pin flips the chunk's label. |
| ResultsDashboard.Render | Frontend/components/results-dashboard.tsx:48-59 | The skeleton is shown iff `data` is absent or falsy. Once shown, each of the score, winners, losers, sectors and `fileName` takes its own default (0, `[]`, `[]`, `[]`, "N/A") exactly when that field is absent or falsy, whatever the others hold. Otherwise it shows the field's value. |
| ResultsDashboard.ChartSectorData | Frontend/components/results-dashboard.tsx:62-65 | One chart entry per sector, with the sector's keys and the fill of its 1-based slot. |
| ResultsDashboard.FillSlotsDistinct | Frontend/components/results-dashboard.tsx:64 | Different sectors get different fills. |
| ResultsDashboard.ScoreColour | Frontend/components/results-dashboard.tsx:84 | Green iff the score is positive, red otherwise. |
| ResultsDashboard.MissingFieldsDefault | Frontend/components/results-dashboard.tsx:55-59 | A truthy payload without the expected fields shows score 0, empty lists and file "N/A". |
| ResultsDashboard.WellFormedPayloadShown | Frontend/components/results-dashboard.tsx:55-73 | A payload with all fields well typed is shown with exactly those values. A zero score shows as 0 too. |
| ResultsDashboard.AllCompaniesFallsBack | Frontend/components/results-dashboard.tsx:59 | Without `all_companies` the table shows the winners followed by the losers. |
| ResultsDashboard.EmptyAllCompaniesKept | Frontend/components/results-dashboard.tsx:59 | An empty `all_companies` array is truthy and so is kept, not replaced. |
| ResultsDashboard.NonArraySectorsThrow | Frontend/components/results-dashboard.tsx:58-62 | A truthy non-array `sector_distribution` makes the render throw. |
| CompanyTable.FilteredSpec | Frontend/components/company-table.tsx:17-28 | The rows are exactly the matching companies, as a multiset, ordered by descending impact or ascending ticker. |
| CompanyTable.BeforeIsTotalPreorder | Frontend/components/company-table.tsx:23-28 | Both orders are total preorders. |
| CompanyTable.EmptySearchShowsAll | Frontend/components/company-table.tsx:17-22 | An empty search shows every company. |
| CompanyTable.ToggledSort | Frontend/components/company-table.tsx:55 | The header click always switches the order. |
| CompanyTable.ToggleTwiceRestores | Frontend/components/company-table.tsx:55 | Two clicks restore the order. |
| CompanyTable.ImpactCellOf | Frontend/components/company-table.tsx:68-70 | "+" and green iff the impact is positive. Otherwise no sign and red. |
| CompanyTable.CompanyTableView.constructor | Frontend/components/company-table.tsx:14-15 | Empty search, sorted by impact. |
| CompanyTable.CompanyTableView.SetSearchTerm | Frontend/components/company-table.tsx:40 | Replaces the term and keeps the order. |
| CompanyTable.CompanyTableView.ClickImpactHeader | Frontend/components/company-table.tsx:55 | Switches the order and keeps the term. |
| StrategyPanel.RiskColourOf | Frontend/components/strategy-panel.tsx:12-16 | A string containing "élevé", ignoring case, is red. Otherwise one containing "modéré" is yellow, and any other string is green. An absent or null level is green, and any other value throws. |
| StrategyPanel.HighWinsOverModerate | Frontend/components/strategy-panel.tsx:13-14 | A level naming both is red. |
| StrategyPanel.CapitalisedHighIsRed | Frontend/components/strategy-panel.tsx:13 | "ÉLEVÉ" and "Risque élevé" are red. |
| StrategyPanel.NeitherLabelIsGreen | Frontend/components/strategy-panel.tsx:15 | A level naming neither, or no level, is green. |
| StrategyPanel.RenderContent | Frontend/components/strategy-panel.tsx:60-85 | Loading iff the data is falsy. Otherwise an error view, with that error, iff `error` is truthy. Otherwise the analysis of the data. |
| StrategyPanel.ScenarioBorder | Frontend/components/strategy-panel.tsx:22-23 | A `null` entry throws at `s.type`. Otherwise the border is red iff the type is exactly "pessimiste", and green for every other entry, including one without a `type`. |
| ChatAssistant.ReplyText | Frontend/components/chat-assistant.tsx:65 | The impact sentence iff the sent text contains "impact" in any case. Otherwise the generic sentence. |
| ChatAssistant.SendKeepsAnswered | Frontend/components/chat-assistant.tsx:56 | Sending keeps the conversation answered in order, with the new text awaiting its reply. |
| ChatAssistant.ReplyKeepsAnswered | Frontend/components/chat-assistant.tsx:68 | A reply to the oldest pending text keeps the conversation answered in order. |
| ChatAssistant.Chat.constructor | Frontend/components/chat-assistant.tsx:29-38 | Only the greeting, empty input, not loading. |
| ChatAssistant.Chat.SetInput | Frontend/components/chat-assistant.tsx:176 | Replaces the input, and nothing else. |
| ChatAssistant.Chat.PickQuickPrompt | Frontend/components/chat-assistant.tsx:158-160 | The input becomes the chosen example prompt. |
| ChatAssistant.Chat.SendMessage | Frontend/components/chat-assistant.tsx:47-59 | Blank input changes nothing. Otherwise the user message is appended, the input cleared, loading set, and the text queued for its reply. |
| ChatAssistant.SendDisabledIff | Frontend/components/chat-assistant.tsx:180 | `SendDisabled`: the button is disabled iff loading is set or every character of the input is whitespace. |
| ChatAssistant.Chat.ClickSend | Frontend/components/chat-assistant.tsx:180 | A disabled button changes nothing. An enabled one sends as `SendMessage` does, and the button is then disabled. |
| ChatAssistant.Chat.KeyDown | Frontend/components/chat-assistant.tsx:177 | Enter sends as `SendMessage` does, without the `loading` guard the button has. Any other key changes nothing. |
| ChatAssistant.Chat.DeliverReply | Frontend/components/chat-assistant.tsx:61-70 | The oldest queued text gets its reply appended, and loading stops. |
| ChatAssistant.QuickPromptsGoneAfterSend | Frontend/components/chat-assistant.tsx:151 | Once any message follows the greeting, the quick prompts are hidden. |
| ChatAssistant.ImpactQuestionGetsImpactAnswer | Frontend/components/chat-assistant.tsx:65 | Any text containing "IMPACT" gets the impact sentence. |
| ProcessingUI.NextIndex | Frontend/components/processing-ui.tsx:59 | The next index stays below 6, advances by one, and wraps from 5 to 0. |
| ProcessingUI.TicksAreModular | Frontend/components/processing-ui.tsx:57-60 | After k ticks the index is (i + k) mod 6. |
| ProcessingUI.SixTicksReturn | Frontend/components/processing-ui.tsx:17-42 | Six ticks cycle back to the same message. |
| ProcessingUI.Cadence.constructor | Frontend/components/processing-ui.tsx:55 | Starts at the first message. |
| ProcessingUI.Cadence.Tick | Frontend/components/processing-ui.tsx:58-60 | The index becomes `NextIndex` of the old one. |
| ProcessingUI.Cadence.ActiveTitle | Frontend/components/processing-ui.tsx:82 | The shown title is always one of the six titles. |
| SingleJobPage.MockData | Frontend/app/page.tsx:45-48 | The mock data has exactly `fileName` and `uploadedAt`. |
| SingleJobPage.Home.constructor | Frontend/app/page.tsx:11-17 | Empty state, null data, null document id, nothing scheduled. |
| SingleJobPage.Home.HandleUpload | Frontend/app/page.tsx:24-30 | No files: nothing happens. Otherwise the first file is sent and the state becomes processing. |
| SingleJobPage.Home.UploadSettled | Frontend/app/page.tsx:32-56 | A non-null response stores its `document_id` and schedules completion. A failure, or a null response whose `document_id` read throws, gives the error state. |
| SingleJobPage.Home.CompletionFires | Frontend/app/page.tsx:43-50 | The oldest scheduled completion sets the mock data and shows results. |
| SingleJobPage.Home.HandleNewAnalysis | Frontend/app/page.tsx:60-64 | Back to empty with null data and id. Scheduled completions are not cancelled. |
| SingleJobPage.ResultsDataIsTruthy | Frontend/app/page.tsx:45-49 | Whenever results are shown, the data is a truthy two-key object. |
| LegacyWorkspace.MockResults | Frontend/src/pages/Workspace.tsx:78-82 | The mock result names the original file and carries the response's `document_id`. |
| LegacyWorkspace.Workspace.constructor | Frontend/src/pages/Workspace.tsx:57-60 | Idle, null id and result, sidebar key false. |
| LegacyWorkspace.Workspace.BeginUpload | Frontend/src/pages/Workspace.tsx:63 | The status becomes uploading, and nothing else changes. |
| LegacyWorkspace.Workspace.UploadSettled | Frontend/src/pages/Workspace.tsx:64-92 | A non-null response stores the id, moves to processing and schedules completion. A failure or a null response gives the error state. |
| LegacyWorkspace.Workspace.CompletionFires | Frontend/src/pages/Workspace.tsx:77-86 | The oldest scheduled completion stores the mock result, completes, and flips the sidebar key. |
| LegacyWorkspace.Workspace.HandleNewAnalysis | Frontend/src/pages/Workspace.tsx:96-100 | Back to idle with null id and result. The sidebar key and scheduled completions are kept. |
| LegacyWorkspace.RenderMainContent | Frontend/src/pages/Workspace.tsx:108-127 | In-progress iff uploading or processing, results iff complete, the failure view iff error, and the uploader iff idle. |
| LegacyWorkspace.AIPanelDocumentId | Frontend/src/pages/Workspace.tsx:146 | The AI panel sees the document id only when complete. |
| LegacyWorkspace.CompleteNamesTheFile | Frontend/src/pages/Workspace.tsx:77-86 | A completed analysis shows results naming its file. |
| LegacyWorkspace.InProgressLooksTheSame | Frontend/src/pages/Workspace.tsx:110-112 | Uploading and processing render the same view. |
| Json.Iterated | Frontend/components/results-dashboard.tsx:59 | Spreading an array gives its items and a string its characters. Anything else throws. |
| Json.OrElse | Frontend/components/results-dashboard.tsx:55-58 | `a || d` is `a` when truthy, else `d`. |
| Json.Coalesce | Frontend/components/workspace.tsx:73-74 | `a ?? d` is `a` unless it is null or undefined. |
| Text.Contains | Frontend/components/company-table.tsx:20-21 | `includes` holds iff the text occurs at some position. |
| Text.BlankIffAllWhitespace | Frontend/components/chat-assistant.tsx:48 | `!input.trim()` holds iff every character is whitespace. |
| Text.ParseIntRoundTrip | Frontend/components/document-viewer.tsx:145 | `parseInt` reads back any integer's decimal text. |
| Text.StrLeTotal | Frontend/components/company-table.tsx:27 | The ticker comparison is total. |
| Text.StrLeTransitive | Frontend/components/company-table.tsx:27 | The ticker comparison is transitive. |
| Lists.Filter | Frontend/components/file-list-sidebar.tsx:32-33 | `filter` returns no more elements than it was given, and each one it returns passes the test. |
| Lists.FilterCounts | Frontend/components/file-list-sidebar.tsx:32-33 | `filter` keeps exactly the elements that pass, with their multiplicity, and drops the rest. |
| Lists.FilterKeepsOrder | Frontend/components/workspace.tsx:95 | `filter`'s result is the subsequence of the input made of exactly the passing elements, in their order. |
| Lists.Find | Frontend/components/workspace.tsx:78 | `find` returns an element iff one passes, and then the first one that passes. |
| Lists.SortSorted | Frontend/components/file-list-sidebar.tsx:34-37 | `sort` with a total-preorder comparator yields a sorted permutation. |

## Left out

- Network calls (`apiService`) and the back end are not part of this model. Their answers are inputs: `UploadOutcome`, `PollOutcome`.
- Timers are not scheduled. Each interval tick, `setTimeout` callback and `await` continuation is a method the environment calls; the 10 s polling interval and the 5 s, 6.5 s and 1 s delays are not modelled.
- Concurrency and interleaving: two ticks of one interval whose requests overlap, and a tick racing the unmount, are not modelled. `Tick` requires its id to be registered.
- Report ids (`Date.now()` joined by "-" to the hexadecimal digits of `Math.random()`), message ids (`Date.now()`) and the current time are parameters.
- Dates: `new Date(report.uploadedAt)` is a caller-supplied `timestampOf` function, and `toLocaleDateString` is not modelled.
- Numbers are unbounded reals. NaN, infinities and `toFixed` rounding are not modelled, and `String()` of a non-integral number is approximate.
- `WorkspaceView.Importance`: `Math.abs` of a non-numeric score uses JavaScript's numeric coercion. Only booleans are coerced here; strings and other values give 0.
- Case mapping covers ASCII and Latin-1 only, and within Latin-1 `Text.Upper` leaves ß (U+00DF), ÿ (U+00FF) and µ (U+00B5) unchanged. JavaScript upper-cases them to "SS", Ÿ (U+0178) and Μ (U+039C), so `Text.Upper`'s length-preserving contract does not hold in JavaScript for ß. Characters outside Latin-1 are not mapped at all.
- Strings are sequences of code points. JavaScript's `length` counts UTF-16 code units, so `Json.Length`, and with it `WorkspaceView.EvidenceCount`, differs from JavaScript for a string with a character outside the Basic Multilingual Plane.
- `localeCompare` is modelled as code-point order, so locale collation is not modelled.
- `StrategyPanel.RiskColourOf`: the decomposed (NFD) spellings of "élevé" and "modéré" are not recognised, as in the source.
- `Text.ParseInt` ignores `0x` prefixes. The page field is a number input, so it never produces one.
- Sort stability is not stated. Only "sorted and a permutation" is proved.
- The search highlighting regex in the document viewer (lines 105-110) is not modelled.
- JSX layout, styling and the presentation-only files (top bar, sidebar, evidence modal, charts, landing page) are not part of this model.
- `onAddToChat` in the document viewer is not modelled, because no modelled parent passes it.
- The chat's "Clear" and "Export Chat" buttons have no handlers, so they are not modelled.
- The dashboard's per-item field reads (`item.ticker`) are not modelled. The conversion of JSON rows into `CompanyTable.Company` values is left to the caller.
- Objects carrying a `length` key, and lookups of inherited keys such as `toString` in the badge variants, are not modelled.
- `console.log` and `alert` calls are not modelled.

## Findings

| source | as written | input that shows it | evidently intended | confidence | as-written member | corrected member |
|---|---|---|---|---|---|---|
| Frontend/components/workspace.tsx:104 | The results panel renders `ResultsDashboard` with `reports` and `activeFile`. It passes no `data`, and `ResultsDashboard` reads only `data`, so it renders its loading skeleton for every completed report. | A report completed with payload `{"portfolio_impact_score": 1}` and made active. | Pass the active report's `data`, so a completed report shows its results. | not executed | WorkspaceView.RenderMainPanelAsWritten, WorkspaceView.CompletedReportAsWrittenIsSkeleton, WorkspaceView.CompletedReportAsWrittenShowsSkeleton | WorkspaceView.RenderMainPanel, WorkspaceView.CompletedReportShowsResults |
