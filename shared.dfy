/** Values that several components exchange: files, thrown values, upload outcomes, snippets. */
module Shared {
  import opened Wrappers
  import Json

  /** A browser `File` as the components use it: its name and its size in bytes. */
  datatype FileInfo = FileInfo(name: string, size: nat)

  /** A value thrown by an awaited call: an `Error` instance with its message, or anything else. */
  datatype Thrown = ErrorInstance(message: string) | OtherValue

  /** `error instanceof Error ? error.message : fallback`. */
  function MessageOr(t: Thrown, fallback: string): (r: string)
    ensures t.ErrorInstance? ==> r == t.message
    ensures t.OtherValue? ==> r == fallback
  {
    match t
    case ErrorInstance(m) => m
    case OtherValue => fallback
  }

  /** How an awaited `uploadAndStartAnalysis` call settles: its parsed JSON body, or a thrown value. */
  datatype UploadOutcome = Uploaded(response: Json.Json) | UploadFailed(thrown: Thrown)

  /** A pinned evidence snippet; only its `id` is compared. */
  datatype Snippet = Snippet(id: string, text: string, page: nat)
}
