/**
 * The upload dialog: drag state, the selection list that drops and the file picker append
 * to, removal by position, and the upload button that hands the selection on.
 */
module UploadModal {
  import opened Wrappers
  import Text
  import Lists
  import opened Shared
  import WorkspaceView

  const AcceptedTypes: seq<string> := [".pdf", ".txt", ".html", ".docx"]

  /** 50 MiB. */
  const MaxSize: nat := 50 * 1024 * 1024

  // ---------------------------------------------------------------------------
  // Acceptance of dropped files
  // ---------------------------------------------------------------------------

  /** `name.split(".").pop()`: the text after the last dot, or the whole name when there is none. */
  function LastSegment(name: string): (r: string)
    ensures |r| <= |name| && r == name[|name| - |r|..]
    ensures '.' !in r
    ensures |r| < |name| ==> name[|name| - |r| - 1] == '.'
  {
    if name == [] then []
    else if name[|name| - 1] == '.' then []
    else LastSegment(name[..|name| - 1]) + [name[|name| - 1]]
  }

  /** The extension the dialog compares: a dot and the lower-cased last segment. */
  function Extension(name: string): string {
    "." + Text.Lower(LastSegment(name))
  }

  /** A dropped file is kept iff its extension is accepted and it is at most 50 MiB. */
  predicate Accepted(f: FileInfo) {
    Extension(f.name) in AcceptedTypes && f.size <= MaxSize
  }

  /** Whatever precedes the last dot does not matter: the segment after it is the extension. */
  lemma {:induction false} LastSegmentAfterDot(base: string, ext: string)
    requires '.' !in ext
    ensures LastSegment(base + "." + ext) == ext
  {
    var name := base + "." + ext;
    if ext == [] {
      assert name[|name| - 1] == '.';
    } else {
      assert name[..|name| - 1] == base + "." + ext[..|ext| - 1];
      LastSegmentAfterDot(base, ext[..|ext| - 1]);
      assert ext == ext[..|ext| - 1] + [ext[|ext| - 1]];
    }
  }

  /** A name ending in ".PDF" (any case) is accepted when the file is small enough. */
  lemma UpperCaseExtensionAccepted(base: string, size: nat)
    requires size <= MaxSize
    ensures Accepted(FileInfo(base + "." + "PDF", size))
  {
    LastSegmentAfterDot(base, "PDF");
    var lowered := Text.Lower("PDF");
    assert lowered[0] == 'p' && lowered[1] == 'd' && lowered[2] == 'f';
    assert lowered == "pdf";
    assert Extension(base + "." + "PDF") == ".pdf";
    assert AcceptedTypes[0] == ".pdf";
  }

  /** Only the last extension counts: "x.pdf.exe" is rejected. */
  lemma DoubleExtensionRejected(base: string, size: nat)
    ensures !Accepted(FileInfo(base + ".pdf" + "." + "exe", size))
  {
    LastSegmentAfterDot(base + ".pdf", "exe");
    var lowered := Text.Lower("exe");
    assert lowered[0] == 'e' && lowered[1] == 'x' && lowered[2] == 'e';
    assert lowered == "exe";
    var ext := Extension(base + ".pdf" + "." + "exe");
    assert ext == ".exe";
    assert ext[1] == 'e';
    assert forall t :: t in AcceptedTypes ==> |t| < 2 || t[1] != 'e';
  }

  /** A name without any dot is its own extension, so a file named "pdf" is accepted. */
  lemma {:induction false} DotlessNameIsItsOwnExtension(name: string)
    requires '.' !in name
    ensures Extension(name) == "." + Text.Lower(name)
  {
    if name != [] {
      DotlessNameIsItsOwnExtension(name[..|name| - 1]);
      assert name == name[..|name| - 1] + [name[|name| - 1]];
    }
  }

  // ---------------------------------------------------------------------------
  // Selection editing
  // ---------------------------------------------------------------------------

  /** `prev.filter((_, i) => i !== index)`. */
  function WithoutIndex(s: seq<FileInfo>, index: int): (r: seq<FileInfo>)
    ensures 0 <= index < |s| ==> r == s[..index] + s[index + 1..]
    ensures !(0 <= index < |s|) ==> r == s
  {
    if s == [] then []
    else
      var rest := WithoutIndex(s[1..], index - 1);
      assert s == [s[0]] + s[1..];
      if index == 0 then rest else [s[0]] + rest
  }

  /** A drag event's type. */
  datatype DragEventType = DragEnter | DragOver | DragLeave | OtherDragEvent

  /** The dialog's own state; `open` belongs to the workspace. */
  class UploadDialog {
    var dragActive: bool
    var selectedFiles: seq<FileInfo>

    constructor ()
      ensures !dragActive && selectedFiles == []
    {
      dragActive := false;
      selectedFiles := [];
    }

    /** `handleDrag`: entering or moving over sets the flag, leaving clears it, anything else keeps it. */
    method HandleDrag(eventType: DragEventType)
      modifies this
      ensures eventType == DragEnter || eventType == DragOver ==> dragActive
      ensures eventType == DragLeave ==> !dragActive
      ensures eventType == OtherDragEvent ==> dragActive == old(dragActive)
      ensures selectedFiles == old(selectedFiles)
    {
      if eventType == DragEnter || eventType == DragOver {
        dragActive := true;
      } else if eventType == DragLeave {
        dragActive := false;
      }
    }

    /** `handleDrop`: accepted files are appended in drop order, the rest are discarded. */
    method HandleDrop(dropped: seq<FileInfo>)
      modifies this
      ensures !dragActive
      ensures selectedFiles == old(selectedFiles) + Lists.Filter(dropped, Accepted)
    {
      dragActive := false;
      var files := Lists.Filter(dropped, Accepted);
      selectedFiles := selectedFiles + files;
    }

    /** `handleFileSelect`: picked files are appended without any check. */
    method HandleFileSelect(picked: seq<FileInfo>)
      modifies this
      ensures selectedFiles == old(selectedFiles) + picked
      ensures dragActive == old(dragActive)
    {
      selectedFiles := selectedFiles + picked;
    }

    /** `removeFile`. */
    method RemoveFile(index: int)
      modifies this
      ensures selectedFiles == WithoutIndex(old(selectedFiles), index)
      ensures dragActive == old(dragActive)
    {
      selectedFiles := WithoutIndex(selectedFiles, index);
    }

    /**
     * `handleUpload`: with files selected, hands over the whole selection, empties it and
     * asks the workspace to close the dialog; with none, does nothing.
     */
    method HandleUpload(workspace: WorkspaceView.WorkspaceView) returns (uploaded: Option<seq<FileInfo>>)
      modifies this, workspace
      ensures old(selectedFiles) == [] ==> uploaded == None
      ensures old(selectedFiles) == [] ==> workspace.uploadModalOpen == old(workspace.uploadModalOpen)
      ensures old(selectedFiles) != [] ==> uploaded == Some(old(selectedFiles)) && !workspace.uploadModalOpen
      ensures selectedFiles == []
      ensures dragActive == old(dragActive) && workspace.pinnedSnippets == old(workspace.pinnedSnippets)
    {
      if |selectedFiles| > 0 {
        uploaded := Some(selectedFiles);
        selectedFiles := [];
        workspace.SetUploadModalOpen(false);
      } else {
        uploaded := None;
      }
    }
  }

  /** Every dropped file that is accepted is kept, as often as it was dropped; no rejected file is. */
  lemma DropKeepsExactlyAccepted(dropped: seq<FileInfo>)
    ensures forall f :: multiset(Lists.Filter(dropped, Accepted))[f] == if Accepted(f) then multiset(dropped)[f] else 0
  {
    Lists.FilterCounts(dropped, Accepted);
  }
}
