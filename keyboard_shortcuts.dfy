/**
 * The keyboard-shortcut hook: which configured shortcuts a key press matches, and the
 * dispatch loop that runs every matching callback in list order and prevents the default.
 */
module KeyboardShortcuts {
  import Text
  import Lists

  /** A configured shortcut; a modifier left undefined is `false`. `action` stands for the callback. */
  datatype Shortcut<A> = Shortcut(key: string, ctrlKey: bool, shiftKey: bool, altKey: bool, metaKey: bool, action: A)

  datatype KeyEvent = KeyEvent(key: string, ctrlKey: bool, shiftKey: bool, altKey: bool, metaKey: bool)

  /** The four tests of `handleKeyDown`, all of which must hold. */
  predicate Matches<A>(s: Shortcut<A>, e: KeyEvent) {
    && Text.Lower(e.key) == Text.Lower(s.key)
    && (if s.ctrlKey || s.metaKey then e.ctrlKey || e.metaKey else !e.ctrlKey && !e.metaKey)
    && (if s.shiftKey then e.shiftKey else !e.shiftKey)
    && (if s.altKey then e.altKey else !e.altKey)
  }

  /** `Matches` for one key press, as a predicate on shortcuts. */
  function MatcherOf<A>(e: KeyEvent): Shortcut<A> -> bool {
    (s: Shortcut<A>) => Matches(s, e)
  }

  /** The shortcuts a key press fires, in list order. */
  function Fired<A(!new)>(shortcuts: seq<Shortcut<A>>, e: KeyEvent): seq<Shortcut<A>> {
    Lists.Filter(shortcuts, MatcherOf(e))
  }

  /**
   * `handleKeyDown`: walks the list, running each matching shortcut's callback and
   * preventing the default as soon as one matches.
   */
  method HandleKeyDown<A(!new)>(shortcuts: seq<Shortcut<A>>, e: KeyEvent) returns (fired: seq<Shortcut<A>>, prevented: bool)
    ensures fired == Fired(shortcuts, e)
    ensures prevented <==> fired != []
  {
    fired := [];
    prevented := false;
    var i := 0;
    while i < |shortcuts|
      invariant 0 <= i <= |shortcuts|
      invariant fired == Fired(shortcuts[..i], e)
      invariant prevented <==> fired != []
    {
      var s := shortcuts[i];
      Lists.FilterAppend(shortcuts[..i], s, MatcherOf(e));
      assert shortcuts[..i + 1] == shortcuts[..i] + [s];
      if Matches(s, e) {
        prevented := true;
        fired := fired + [s];
      }
      i := i + 1;
    }
    assert shortcuts[..i] == shortcuts;
  }

  /** Every matching shortcut fires, as often as it is listed, and nothing else does. */
  lemma FiredAreExactlyTheMatching<A(!new)>(shortcuts: seq<Shortcut<A>>, e: KeyEvent)
    ensures forall s :: multiset(Fired(shortcuts, e))[s] == if Matches(s, e) then multiset(shortcuts)[s] else 0
    ensures Fired(shortcuts, e) == [] <==> forall i :: 0 <= i < |shortcuts| ==> !Matches(shortcuts[i], e)
  {
    Lists.FilterCounts(shortcuts, MatcherOf(e));
    var fired := Fired(shortcuts, e);
    if fired == [] {
      forall i | 0 <= i < |shortcuts| ensures !Matches(shortcuts[i], e) {
        assert multiset(shortcuts)[shortcuts[i]] > 0;
      }
    } else {
      assert multiset(fired)[fired[0]] > 0;
    }
  }

  /** The key is compared without regard to case. */
  lemma KeyCaseInsensitive<A>(s: Shortcut<A>, e: KeyEvent)
    ensures Matches(s, e) <==> Matches(s, e.(key := Text.Lower(e.key)))
    ensures Matches(s, e) <==> Matches(s.(key := Text.Lower(s.key)), e)
  {
    Text.LowerIdempotent(e.key);
    Text.LowerIdempotent(s.key);
  }

  /** Ctrl and Meta stand in for each other, in the shortcut and in the event. */
  lemma CtrlMetaInterchangeable<A>(s: Shortcut<A>, e: KeyEvent)
    requires s.ctrlKey || s.metaKey
    ensures Matches(s, e.(ctrlKey := true, metaKey := false)) <==> Matches(s, e.(ctrlKey := false, metaKey := true))
    ensures Matches(s, e) ==> e.ctrlKey || e.metaKey
  {
  }

  /** A shortcut without Ctrl or Meta never fires while either is held. */
  lemma PlainShortcutIgnoresModifiedPress<A>(s: Shortcut<A>, e: KeyEvent)
    requires !s.ctrlKey && !s.metaKey && (e.ctrlKey || e.metaKey)
    ensures !Matches(s, e)
  {
  }

  /** Shift and Alt must be held exactly when the shortcut asks for them. */
  lemma ShiftAndAltExact<A>(s: Shortcut<A>, e: KeyEvent)
    requires Matches(s, e)
    ensures e.shiftKey == s.shiftKey && e.altKey == s.altKey
  {
  }
}
