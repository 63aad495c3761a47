/**
 * The processing screen's rotating message: an interval advances an index through the six
 * cadence messages, wrapping around.
 */
module ProcessingUI {
  const CadenceTitles: seq<string> := [
    "Warming up the AI...",
    "Teaching the robots to read...",
    "Brewing some digital coffee...",
    "Consulting the digital oracle...",
    "Untangling the regulatory spaghetti...",
    "Polishing the insights..."]

  const CadenceCount: nat := 6

  /** `(prev + 1) % cadenceMessages.length`. */
  function NextIndex(i: nat): (r: nat)
    ensures r < CadenceCount
    ensures i + 1 < CadenceCount ==> r == i + 1
    ensures i == CadenceCount - 1 ==> r == 0
  {
    (i + 1) % CadenceCount
  }

  /** The index after `k` ticks from `i`. */
  function TicksFrom(i: nat, k: nat): nat {
    if k == 0 then i else NextIndex(TicksFrom(i, k - 1))
  }

  /** `k` ticks from a valid index advance it by `k`, modulo six. */
  lemma {:induction false} TicksAreModular(i: nat, k: nat)
    requires i < CadenceCount
    ensures TicksFrom(i, k) == (i + k) % CadenceCount
  {
    if k > 0 {
      TicksAreModular(i, k - 1);
    }
  }

  /** Six ticks bring the message back to where it was. */
  lemma SixTicksReturn(i: nat)
    requires i < CadenceCount
    ensures TicksFrom(i, CadenceCount) == i
  {
    TicksAreModular(i, CadenceCount);
  }

  class Cadence {
    var activeMessageIndex: nat

    ghost predicate Valid()
      reads this
    {
      activeMessageIndex < CadenceCount
    }

    constructor ()
      ensures Valid() && activeMessageIndex == 0
    {
      activeMessageIndex := 0;
    }

    /** One interval tick. */
    method Tick()
      modifies this
      ensures Valid()
      ensures activeMessageIndex == NextIndex(old(activeMessageIndex))
    {
      activeMessageIndex := (activeMessageIndex + 1) % CadenceCount;
    }

    /** `cadenceMessages[activeMessageIndex].title`: always in bounds. */
    function ActiveTitle(): (title: string)
      requires Valid()
      reads this
      ensures title in CadenceTitles
    {
      CadenceTitles[activeMessageIndex]
    }
  }
}
