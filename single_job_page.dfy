/**
 * The older single-job home page: it uploads the first of the chosen files, stores the
 * returned document id, and after a simulated delay shows results built from the file name.
 * The awaited upload and the delayed completion are separate method calls; scheduled
 * completions wait in a queue and still run after a reset.
 */
module SingleJobPage {
  import opened Wrappers
  import opened Json
  import opened Shared

  datatype AnalysisState = EmptyState | ProcessingState | ResultsState | ErrorState

  /** The data the delayed completion shows. */
  function MockData(fileName: string, now: string): (d: Json)
    ensures d.JObj? && d.fields.Keys == {"fileName", "uploadedAt"}
    ensures d.fields["fileName"] == JStr(fileName) && d.fields["uploadedAt"] == JStr(now)
  {
    JObj(map["fileName" := JStr(fileName), "uploadedAt" := JStr(now)])
  }

  /** Results are only ever shown with data naming a file and a time. */
  ghost predicate ResultsHaveData(state: AnalysisState, data: Json) {
    state == ResultsState ==> exists name, now :: data == MockData(name, now)
  }

  class Home {
    var analysisState: AnalysisState
    var analysisData: Json
    /** `None` is `undefined`; the initial `null` is `Some(JNull)`. */
    var documentId: Option<Json>
    /** The file names captured by scheduled completions, oldest first. */
    var pendingCompletions: seq<string>

    ghost predicate Valid()
      reads this
    {
      ResultsHaveData(analysisState, analysisData)
    }

    constructor ()
      ensures Valid()
      ensures analysisState == EmptyState && analysisData == JNull && documentId == Some(JNull) && pendingCompletions == []
    {
      analysisState := EmptyState;
      analysisData := JNull;
      documentId := Some(JNull);
      pendingCompletions := [];
    }

    /**
     * `handleUpload` up to the awaited upload: an empty list changes nothing; otherwise the
     * processing view shows and only the first file is sent.
     */
    method HandleUpload(files: seq<FileInfo>) returns (sent: Option<FileInfo>)
      requires Valid()
      modifies this
      ensures Valid()
      ensures files == [] ==> sent == None && analysisState == old(analysisState)
      ensures files != [] ==> sent == Some(files[0]) && analysisState == ProcessingState
      ensures analysisData == old(analysisData) && documentId == old(documentId)
      ensures pendingCompletions == old(pendingCompletions)
    {
      if |files| == 0 {
        return None;
      }
      sent := Some(files[0]);
      analysisState := ProcessingState;
    }

    /**
     * The upload settles. A response stores its `document_id` and schedules the completion;
     * a `null` response throws on that read, and a failed upload throws: both show the error.
     */
    method UploadSettled(file: FileInfo, outcome: UploadOutcome)
      requires Valid()
      modifies this
      ensures Valid()
      ensures outcome.Uploaded? && !outcome.response.JNull? ==>
        && documentId == Get(Some(outcome.response), "document_id")
        && pendingCompletions == old(pendingCompletions) + [file.name]
        && analysisState == old(analysisState)
      ensures outcome.UploadFailed? || outcome.response.JNull? ==>
        && analysisState == ErrorState
        && documentId == old(documentId) && pendingCompletions == old(pendingCompletions)
      ensures analysisData == old(analysisData)
    {
      match outcome {
        case Uploaded(result) =>
          if result.JNull? {
            analysisState := ErrorState;
          } else {
            documentId := Get(Some(result), "document_id");
            pendingCompletions := pendingCompletions + [file.name];
          }
        case UploadFailed(_) =>
          analysisState := ErrorState;
      }
    }

    /** The oldest scheduled completion runs at time `now`, whatever the page shows meanwhile. */
    method CompletionFires(now: string)
      requires Valid() && pendingCompletions != []
      modifies this
      ensures Valid()
      ensures analysisData == MockData(old(pendingCompletions)[0], now) && analysisState == ResultsState
      ensures pendingCompletions == old(pendingCompletions)[1..] && documentId == old(documentId)
    {
      analysisData := MockData(pendingCompletions[0], now);
      analysisState := ResultsState;
      pendingCompletions := pendingCompletions[1..];
    }

    /** `handleNewAnalysis`: back to the empty state; scheduled completions are not cancelled. */
    method HandleNewAnalysis()
      requires Valid()
      modifies this
      ensures Valid()
      ensures analysisState == EmptyState && analysisData == JNull && documentId == Some(JNull)
      ensures pendingCompletions == old(pendingCompletions)
    {
      analysisState := EmptyState;
      analysisData := JNull;
      documentId := Some(JNull);
    }
  }

  /** The results data always names the uploaded file, so it is never empty or falsy. */
  lemma ResultsDataIsTruthy(state: AnalysisState, data: Json)
    requires ResultsHaveData(state, data) && state == ResultsState
    ensures Truthy(data) && KeyCount(data) == 2
  {
    var name, now :| data == MockData(name, now);
    assert data.fields.Keys == {"fileName", "uploadedAt"};
  }
}
