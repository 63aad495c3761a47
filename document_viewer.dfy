/**
 * The document viewer: page navigation clamped to the twelve pages (keyboard, buttons and
 * the typed page number), the search toggle, the selection bar, and the evidence chunks'
 * pinned state.
 */
module DocumentViewer {
  import opened Wrappers
  import Text
  import Lists
  import opened Shared
  import KeyboardShortcuts
  import WorkspaceView

  const TotalPages: int := 12

  // ---------------------------------------------------------------------------
  // Page arithmetic
  // ---------------------------------------------------------------------------

  /** `Math.max(1, currentPage - 1)`. */
  function PrevPage(page: int): (r: int)
    ensures r >= 1
    ensures page > 1 ==> r == page - 1
    ensures page <= 1 ==> r == 1
  {
    if page - 1 > 1 then page - 1 else 1
  }

  /** `Math.min(totalPages, currentPage + 1)`. */
  function NextPage(page: int): (r: int)
    ensures r <= TotalPages
    ensures page < TotalPages ==> r == page + 1
    ensures page >= TotalPages ==> r == TotalPages
  {
    if page + 1 < TotalPages then page + 1 else TotalPages
  }

  /** `Math.min(totalPages, Math.max(1, Number.parseInt(value) || 1))`. */
  function TypedPage(value: string): (r: int)
    ensures 1 <= r <= TotalPages
  {
    var parsed := match Text.ParseInt(value)
      case None => 1
      case Some(n) => if n == 0 then 1 else n;
    var atLeastOne := if parsed > 1 then parsed else 1;
    if atLeastOne < TotalPages then atLeastOne else TotalPages
  }

  /** A typed page number in range is taken as it is. */
  lemma TypedPageInRange(n: int)
    requires 1 <= n <= TotalPages
    ensures TypedPage(Text.IntToString(n)) == n
  {
    Text.ParseIntRoundTrip(n);
  }

  /** Non-numeric input and zero both go to page 1; numbers past the end go to the last page. */
  lemma TypedPageOutOfRange(value: string, n: int)
    ensures Text.ParseInt(value).None? ==> TypedPage(value) == 1
    ensures n <= 0 ==> TypedPage(Text.IntToString(n)) == 1
    ensures n >= TotalPages ==> TypedPage(Text.IntToString(n)) == TotalPages
  {
    Text.ParseIntRoundTrip(n);
  }

  /** From a valid page, one step back and one step forward stay on a valid page, and undo each other away from the ends. */
  lemma StepsStayInRange(page: int)
    requires 1 <= page <= TotalPages
    ensures 1 <= PrevPage(page) <= TotalPages && 1 <= NextPage(page) <= TotalPages
    ensures page < TotalPages ==> PrevPage(NextPage(page)) == page
    ensures page > 1 ==> NextPage(PrevPage(page)) == page
  {
  }

  // ---------------------------------------------------------------------------
  // Keyboard shortcuts
  // ---------------------------------------------------------------------------

  datatype ViewerAction = ToggleSearch | GoPrevious | GoNext | Highlight

  /** The four shortcuts the viewer registers, none with modifiers. */
  function Shortcuts(): seq<KeyboardShortcuts.Shortcut<ViewerAction>> {
    [ KeyboardShortcuts.Shortcut("f", false, false, false, false, ToggleSearch),
      KeyboardShortcuts.Shortcut("ArrowLeft", false, false, false, false, GoPrevious),
      KeyboardShortcuts.Shortcut("ArrowRight", false, false, false, false, GoNext),
      KeyboardShortcuts.Shortcut("h", false, false, false, false, Highlight) ]
  }

  /** The part of the viewer's state the shortcuts change. */
  datatype Navigation = Navigation(page: int, showSearch: bool)

  /**
   * One callback run during a key press. Every callback computes its new value from the
   * state of the render that registered it (`snapshot`), not from earlier callbacks.
   */
  function Step(snapshot: Navigation, current: Navigation, a: ViewerAction): Navigation {
    match a
    case ToggleSearch => current.(showSearch := !snapshot.showSearch)
    case GoPrevious => current.(page := PrevPage(snapshot.page))
    case GoNext => current.(page := NextPage(snapshot.page))
    case Highlight => current
  }

  /** The state after running `actions` in order from `snapshot`. */
  function RunActions(snapshot: Navigation, actions: seq<ViewerAction>): Navigation {
    if actions == [] then snapshot
    else Step(snapshot, RunActions(snapshot, actions[..|actions| - 1]), actions[|actions| - 1])
  }

  /** Running one more action is one more `Step` and at most one more highlight call. */
  lemma RunOneMore(snapshot: Navigation, actions: seq<ViewerAction>, i: nat)
    requires i < |actions|
    ensures RunActions(snapshot, actions[..i + 1]) == Step(snapshot, RunActions(snapshot, actions[..i]), actions[i])
    ensures HighlightCalls(actions[..i + 1]) ==
      HighlightCalls(actions[..i]) + (if actions[i] == Highlight then [ChunkIds] else [])
  {
    assert actions[..i + 1][..i] == actions[..i];
  }

  /** The ids `h` passes to `onHighlight`. */
  const ChunkIds: seq<string> := ["chunk-1", "chunk-2", "chunk-3"]

  /** One `onHighlight(chunk ids)` call per highlight action. */
  function HighlightCalls(actions: seq<ViewerAction>): seq<seq<string>> {
    if actions == [] then []
    else HighlightCalls(actions[..|actions| - 1]) + (if actions[|actions| - 1] == Highlight then [ChunkIds] else [])
  }

  function Actions(fired: seq<KeyboardShortcuts.Shortcut<ViewerAction>>): (r: seq<ViewerAction>)
    ensures |r| == |fired| && forall i :: 0 <= i < |fired| ==> r[i] == fired[i].action
  {
    seq(|fired|, i requires 0 <= i < |fired| => fired[i].action)
  }

  /** The shortcut list is matched in order; the four keys differ, so at most one fires. */
  lemma FiredByKey(e: KeyboardShortcuts.KeyEvent)
    ensures var s := Shortcuts();
      KeyboardShortcuts.Fired(s, e) ==
        if KeyboardShortcuts.Matches(s[0], e) then [s[0]]
        else if KeyboardShortcuts.Matches(s[1], e) then [s[1]]
        else if KeyboardShortcuts.Matches(s[2], e) then [s[2]]
        else if KeyboardShortcuts.Matches(s[3], e) then [s[3]]
        else []
  {
    var s := Shortcuts();
    assert s[1..][1..][1..][1..] == [];
    var lowered := Text.Lower(e.key);
    assert Text.Lower(s[0].key) == "f" by { assert Text.Lower(s[0].key)[0] == 'f'; }
    assert Text.Lower(s[3].key) == "h" by { assert Text.Lower(s[3].key)[0] == 'h'; }
    assert |Text.Lower(s[1].key)| == 9 && |Text.Lower(s[2].key)| == 10;
  }

  /** The `forEach` over the fired shortcuts: each callback in turn, all reading `snapshot`. */
  method RunCallbacks(snapshot: Navigation, actions: seq<ViewerAction>) returns (after: Navigation, highlights: seq<seq<string>>)
    requires 1 <= snapshot.page <= TotalPages
    ensures after == RunActions(snapshot, actions) && highlights == HighlightCalls(actions)
    ensures 1 <= after.page <= TotalPages
  {
    after := snapshot;
    highlights := [];
    var i := 0;
    while i < |actions|
      invariant 0 <= i <= |actions|
      invariant after == RunActions(snapshot, actions[..i])
      invariant highlights == HighlightCalls(actions[..i])
      invariant 1 <= after.page <= TotalPages
    {
      RunOneMore(snapshot, actions, i);
      match actions[i] {
        case ToggleSearch => after := after.(showSearch := !snapshot.showSearch);
        case GoPrevious => after := after.(page := PrevPage(snapshot.page));
        case GoNext => after := after.(page := NextPage(snapshot.page));
        case Highlight => highlights := highlights + [ChunkIds];
      }
      i := i + 1;
    }
    assert actions[..i] == actions;
  }

  // ---------------------------------------------------------------------------
  // The viewer
  // ---------------------------------------------------------------------------

  class Viewer {
    var currentPage: int
    var searchQuery: string
    var selectedText: string
    var showSearch: bool

    ghost predicate Valid()
      reads this
    {
      1 <= currentPage <= TotalPages
    }

    function State(): Navigation
      reads this
    {
      Navigation(currentPage, showSearch)
    }

    constructor ()
      ensures Valid()
      ensures currentPage == 1 && searchQuery == "" && selectedText == "" && !showSearch
    {
      currentPage := 1;
      searchQuery := "";
      selectedText := "";
      showSearch := false;
    }

    /**
     * A key press: runs the callbacks of every matching shortcut, in list order, and
     * returns the `onHighlight` calls made.
     */
    method HandleKeyDown(e: KeyboardShortcuts.KeyEvent) returns (highlights: seq<seq<string>>, prevented: bool)
      requires Valid()
      modifies this
      ensures Valid()
      ensures var actions := Actions(KeyboardShortcuts.Fired(Shortcuts(), e));
        State() == RunActions(old(State()), actions) && highlights == HighlightCalls(actions)
      ensures prevented <==> KeyboardShortcuts.Fired(Shortcuts(), e) != []
      ensures searchQuery == old(searchQuery) && selectedText == old(selectedText)
    {
      var fired;
      fired, prevented := KeyboardShortcuts.HandleKeyDown(Shortcuts(), e);
      var after;
      after, highlights := RunCallbacks(State(), Actions(fired));
      currentPage := after.page;
      showSearch := after.showSearch;
    }

    /** The "Previous page" button. */
    method PreviousPage()
      requires Valid()
      modifies this
      ensures Valid() && currentPage == PrevPage(old(currentPage))
      ensures showSearch == old(showSearch) && searchQuery == old(searchQuery) && selectedText == old(selectedText)
    {
      currentPage := if currentPage - 1 > 1 then currentPage - 1 else 1;
    }

    /** The "Next page" button. */
    method NextPageButton()
      requires Valid()
      modifies this
      ensures Valid() && currentPage == NextPage(old(currentPage))
      ensures showSearch == old(showSearch) && searchQuery == old(searchQuery) && selectedText == old(selectedText)
    {
      currentPage := if currentPage + 1 < TotalPages then currentPage + 1 else TotalPages;
    }

    /** The page-number input's `onChange`. */
    method TypePage(value: string)
      modifies this
      ensures Valid() && currentPage == TypedPage(value)
      ensures showSearch == old(showSearch) && searchQuery == old(searchQuery) && selectedText == old(selectedText)
    {
      currentPage := TypedPage(value);
    }

    method SetSearchQuery(query: string)
      modifies this
      ensures searchQuery == query
      ensures currentPage == old(currentPage) && showSearch == old(showSearch) && selectedText == old(selectedText)
    {
      searchQuery := query;
    }

    /** `handleTextSelection`: an empty selection keeps the previous one. */
    method HandleTextSelection(selection: string)
      modifies this
      ensures selection != "" ==> selectedText == selection
      ensures selection == "" ==> selectedText == old(selectedText)
      ensures currentPage == old(currentPage) && showSearch == old(showSearch) && searchQuery == old(searchQuery)
    {
      if selection != "" {
        selectedText := selection;
      }
    }

    /** The selection bar's "Dismiss". */
    method DismissSelection()
      modifies this
      ensures selectedText == ""
      ensures currentPage == old(currentPage) && showSearch == old(showSearch) && searchQuery == old(searchQuery)
    {
      selectedText := "";
    }
  }

  /** A bare "f" (either case) fires the search shortcut and nothing else. */
  lemma KeyFFiresAlone(e: KeyboardShortcuts.KeyEvent)
    requires Text.Lower(e.key) == "f" && !e.ctrlKey && !e.shiftKey && !e.altKey && !e.metaKey
    ensures KeyboardShortcuts.Fired(Shortcuts(), e) == [Shortcuts()[0]]
  {
    assert KeyboardShortcuts.Matches(Shortcuts()[0], e) by {
      assert Text.Lower(Shortcuts()[0].key) == "f" by { assert Text.Lower(Shortcuts()[0].key)[0] == 'f'; }
    }
    FiredByKey(e);
  }

  /** Pressing a bare "f" (either case) toggles the search bar and leaves the page alone. */
  lemma KeyFTogglesSearch(snapshot: Navigation, e: KeyboardShortcuts.KeyEvent)
    requires Text.Lower(e.key) == "f" && !e.ctrlKey && !e.shiftKey && !e.altKey && !e.metaKey
    ensures RunActions(snapshot, Actions(KeyboardShortcuts.Fired(Shortcuts(), e))) == snapshot.(showSearch := !snapshot.showSearch)
  {
    KeyFFiresAlone(e);
    RunsSingleAction(snapshot, KeyboardShortcuts.Fired(Shortcuts(), e), Shortcuts()[0]);
  }

  /** When a single shortcut fires, the key press is one `Step` from the snapshot. */
  lemma RunsSingleAction(snapshot: Navigation, fired: seq<KeyboardShortcuts.Shortcut<ViewerAction>>, x: KeyboardShortcuts.Shortcut<ViewerAction>)
    requires fired == [x]
    ensures RunActions(snapshot, Actions(fired)) == Step(snapshot, snapshot, x.action)
  {
    assert Actions(fired) == [x.action];
    assert [x.action][..0] == [];
  }

  /** An unmodified left arrow fires the left-arrow shortcut and nothing else. */
  lemma ArrowLeftFiresAlone(e: KeyboardShortcuts.KeyEvent)
    requires e.key == "ArrowLeft" && !e.ctrlKey && !e.shiftKey && !e.altKey && !e.metaKey
    ensures KeyboardShortcuts.Fired(Shortcuts(), e) == [Shortcuts()[1]]
  {
    FiredByKey(e);
    assert !KeyboardShortcuts.Matches(Shortcuts()[0], e) by {
      assert |Text.Lower(e.key)| != |Text.Lower(Shortcuts()[0].key)|;
    }
  }

  /** An unmodified right arrow fires the right-arrow shortcut and nothing else. */
  lemma ArrowRightFiresAlone(e: KeyboardShortcuts.KeyEvent)
    requires e.key == "ArrowRight" && !e.ctrlKey && !e.shiftKey && !e.altKey && !e.metaKey
    ensures KeyboardShortcuts.Fired(Shortcuts(), e) == [Shortcuts()[2]]
  {
    FiredByKey(e);
    assert !KeyboardShortcuts.Matches(Shortcuts()[0], e) by {
      assert |Text.Lower(e.key)| != |Text.Lower(Shortcuts()[0].key)|;
    }
    assert !KeyboardShortcuts.Matches(Shortcuts()[1], e) by {
      assert |Text.Lower(e.key)| != |Text.Lower(Shortcuts()[1].key)|;
    }
  }

  /** An unmodified left arrow moves one page back, never before the first page. */
  lemma ArrowLeftTurnsBack(snapshot: Navigation, e: KeyboardShortcuts.KeyEvent)
    requires e.key == "ArrowLeft" && !e.ctrlKey && !e.shiftKey && !e.altKey && !e.metaKey
    ensures RunActions(snapshot, Actions(KeyboardShortcuts.Fired(Shortcuts(), e))) == snapshot.(page := PrevPage(snapshot.page))
  {
    ArrowLeftFiresAlone(e);
    RunsSingleAction(snapshot, KeyboardShortcuts.Fired(Shortcuts(), e), Shortcuts()[1]);
  }

  /** An unmodified right arrow moves one page forward, never past the last page. */
  lemma ArrowRightTurnsForward(snapshot: Navigation, e: KeyboardShortcuts.KeyEvent)
    requires e.key == "ArrowRight" && !e.ctrlKey && !e.shiftKey && !e.altKey && !e.metaKey
    ensures RunActions(snapshot, Actions(KeyboardShortcuts.Fired(Shortcuts(), e))) == snapshot.(page := NextPage(snapshot.page))
  {
    ArrowRightFiresAlone(e);
    RunsSingleAction(snapshot, KeyboardShortcuts.Fired(Shortcuts(), e), Shortcuts()[2]);
  }

  /** A key pressed with Ctrl or Meta fires none of the viewer's shortcuts. */
  lemma ModifiedKeysDoNothing(e: KeyboardShortcuts.KeyEvent)
    requires e.ctrlKey || e.metaKey
    ensures KeyboardShortcuts.Fired(Shortcuts(), e) == []
  {
    FiredByKey(e);
  }

  // ---------------------------------------------------------------------------
  // Evidence chunks
  // ---------------------------------------------------------------------------

  /** The three evidence chunks shown under the document. */
  const Chunks: seq<Snippet> := [
    Snippet("chunk-1", "All organizations must implement end-to-end encryption for user data at rest and in transit.", 2),
    Snippet("chunk-2", "Organizations must maintain audit logs for minimum 7 years.", 3),
    Snippet("chunk-3", "Quarterly compliance certifications are required for regulated entities.", 3)]

  /** The pin button's text: `pinnedSnippets.find(s => s.id === chunk.id) ? "Pinned" : "Pin"`. */
  function PinLabel(pinned: seq<Snippet>, chunk: Snippet): (text: string)
    ensures text == "Pinned" <==> WorkspaceView.IsPinned(pinned, chunk.id)
    ensures text == "Pin" <==> !WorkspaceView.IsPinned(pinned, chunk.id)
  {
    if Lists.Find(pinned, (s: Snippet) => s.id == chunk.id).Some? then "Pinned" else "Pin"
  }

  /** Clicking a chunk's pin button flips its label. */
  lemma PinClickFlipsLabel(pinned: seq<Snippet>, chunk: Snippet)
    ensures PinLabel(WorkspaceView.TogglePin(pinned, chunk), chunk) != PinLabel(pinned, chunk)
  {
  }
}
