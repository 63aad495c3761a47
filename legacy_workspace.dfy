/**
 * The older workspace page: IDLE, UPLOADING, PROCESSING, COMPLETE and ERROR, with a
 * simulated completion five seconds after a successful upload. The awaited upload and
 * the delayed completion are separate method calls; scheduled completions wait in a queue.
 */
module LegacyWorkspace {
  import opened Wrappers
  import opened Json
  import opened Shared

  datatype AnalysisStatus = Idle | Uploading | Processing | Complete | Failed

  /** A scheduled completion remembers the upload's `document_id` and the file's name. */
  datatype Scheduled = Scheduled(documentId: Option<Json>, fileName: string)

  const MockMessage: string := "This is a mock result. The analysis pipeline would produce the real data."

  /** `mockResults`; an undefined `document_id` is left out, as `JSON.stringify` shows it. */
  function MockResults(s: Scheduled): (r: Json)
    ensures r.JObj? && "message" in r.fields && "original_filename" in r.fields
    ensures r.fields["original_filename"] == JStr(s.fileName)
    ensures Get(Some(r), "document_id") == s.documentId
  {
    var base := map["message" := JStr(MockMessage), "original_filename" := JStr(s.fileName)];
    match s.documentId
    case None => JObj(base)
    case Some(id) => JObj(base["document_id" := id])
  }

  class Workspace {
    var analysisStatus: AnalysisStatus
    /** `Some(JNull)` is `null`, `None` is `undefined`. */
    var currentDocId: Option<Json>
    var analysisResult: Json
    var refreshSidebarKey: bool
    var scheduled: seq<Scheduled>

    /** COMPLETE always shows the mock results of some upload. */
    ghost predicate Valid()
      reads this
    {
      analysisStatus == Complete ==> exists s :: analysisResult == MockResults(s)
    }

    constructor ()
      ensures Valid()
      ensures analysisStatus == Idle && currentDocId == Some(JNull) && analysisResult == JNull
      ensures !refreshSidebarKey && scheduled == []
    {
      analysisStatus := Idle;
      currentDocId := Some(JNull);
      analysisResult := JNull;
      refreshSidebarKey := false;
      scheduled := [];
    }

    /** `handleFileUpload` up to the awaited upload. */
    method BeginUpload()
      requires Valid()
      modifies this
      ensures Valid()
      ensures analysisStatus == Uploading
      ensures currentDocId == old(currentDocId) && analysisResult == old(analysisResult)
      ensures refreshSidebarKey == old(refreshSidebarKey) && scheduled == old(scheduled)
    {
      analysisStatus := Uploading;
    }

    /**
     * The upload settles: a response's `document_id` is stored, the status moves to
     * PROCESSING and the completion is scheduled; a failed upload, or a `null` response
     * (whose `document_id` read throws), moves to ERROR.
     */
    method UploadSettled(file: FileInfo, outcome: UploadOutcome)
      requires Valid()
      modifies this
      ensures Valid()
      ensures outcome.Uploaded? && !outcome.response.JNull? ==>
        && currentDocId == Get(Some(outcome.response), "document_id")
        && analysisStatus == Processing
        && scheduled == old(scheduled) + [Scheduled(Get(Some(outcome.response), "document_id"), file.name)]
      ensures outcome.UploadFailed? || outcome.response.JNull? ==>
        analysisStatus == Failed && currentDocId == old(currentDocId) && scheduled == old(scheduled)
      ensures analysisResult == old(analysisResult) && refreshSidebarKey == old(refreshSidebarKey)
    {
      match outcome {
        case Uploaded(result) =>
          if result.JNull? {
            analysisStatus := Failed;
          } else {
            var documentId := Get(Some(result), "document_id");
            currentDocId := documentId;
            analysisStatus := Processing;
            scheduled := scheduled + [Scheduled(documentId, file.name)];
          }
        case UploadFailed(_) =>
          analysisStatus := Failed;
      }
    }

    /** The oldest scheduled completion runs: mock results, COMPLETE, and the sidebar key flips. */
    method CompletionFires()
      requires Valid() && scheduled != []
      modifies this
      ensures Valid()
      ensures analysisResult == MockResults(old(scheduled)[0])
      ensures analysisStatus == Complete && refreshSidebarKey == !old(refreshSidebarKey)
      ensures scheduled == old(scheduled)[1..] && currentDocId == old(currentDocId)
    {
      analysisResult := MockResults(scheduled[0]);
      analysisStatus := Complete;
      refreshSidebarKey := !refreshSidebarKey;
      scheduled := scheduled[1..];
    }

    /** `handleNewAnalysis` (also "Try Again" and the sidebar's "New Chat"). */
    method HandleNewAnalysis()
      requires Valid()
      modifies this
      ensures Valid()
      ensures analysisStatus == Idle && currentDocId == Some(JNull) && analysisResult == JNull
      ensures refreshSidebarKey == old(refreshSidebarKey) && scheduled == old(scheduled)
    {
      analysisStatus := Idle;
      currentDocId := Some(JNull);
      analysisResult := JNull;
    }
  }

  /** What `renderMainContent` shows. */
  datatype MainContent = InProgress(docId: Option<Json>) | Results(results: Json) | UploadFailedView | Uploader(isUploading: bool)

  function RenderMainContent(status: AnalysisStatus, docId: Option<Json>, result: Json): (c: MainContent)
    ensures status == Uploading || status == Processing <==> c.InProgress?
    ensures c.InProgress? ==> c.docId == docId
    ensures status == Complete <==> c == Results(result)
    ensures status == Failed <==> c == UploadFailedView
    ensures status == Idle <==> c.Uploader?
    ensures c.Uploader? ==> !c.isUploading
  {
    match status
    case Uploading => InProgress(docId)
    case Processing => InProgress(docId)
    case Complete => Results(result)
    case Failed => UploadFailedView
    case Idle => Uploader(status == Uploading)
  }

  /** The AI panel's `documentId`: the current id once complete, `null` otherwise. */
  function AIPanelDocumentId(status: AnalysisStatus, docId: Option<Json>): (r: Option<Json>)
    ensures status == Complete ==> r == docId
    ensures status != Complete ==> r == Some(JNull)
  {
    if status == Complete then docId else Some(JNull)
  }

  /** The results page always names the uploaded file. */
  lemma CompleteNamesTheFile(status: AnalysisStatus, result: Json, docId: Option<Json>)
    requires status == Complete && exists s :: result == MockResults(s)
    ensures RenderMainContent(status, docId, result).Results?
    ensures var r := RenderMainContent(status, docId, result).results;
      r.JObj? && "original_filename" in r.fields && r.fields["original_filename"].JStr?
  {
    var s :| result == MockResults(s);
  }

  /** Uploading and processing look the same, down to the document id they show. */
  lemma InProgressLooksTheSame(docId: Option<Json>, result: Json)
    ensures RenderMainContent(Uploading, docId, result) == RenderMainContent(Processing, docId, result)
  {
  }
}
