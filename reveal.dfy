/** The reveal-on-scroll wrapper: an element that starts with the class
    "reveal", gains "visible" on the first intersecting observation and is
    then no longer observed, so the reveal is one-shot and final. */
module Reveal {

  const RevealClass := "reveal"
  const VisibleClass := "visible"

  /** The wrapper's state as a value: whether it shows as visible and whether
      the observer still watches it. */
  datatype RevealState = RevealState(visible: bool, observed: bool)

  const Initial := RevealState(false, true)

  /** One observer callback. Only the first entry of the batch is looked at,
      and nothing reaches an element that is no longer observed. */
  function OnEntries(s: RevealState, entries: seq<bool>): RevealState {
    if s.observed && entries != [] && entries[0] then RevealState(true, false) else s
  }

  /** A run of callbacks. */
  function Run(s: RevealState, batches: seq<seq<bool>>): RevealState
    decreases |batches|
  {
    if batches == [] then s else Run(OnEntries(s, batches[0]), batches[1..])
  }

  /** Visible and observed exclude each other once the run starts from the
      initial state. */
  predicate Consistent(s: RevealState) {
    s.visible <==> !s.observed
  }

  /** Reveal is terminal: once visible, no later callback changes anything. */
  lemma {:induction false} RevealIsFinal(s: RevealState, batches: seq<seq<bool>>)
    requires s.visible && !s.observed
    ensures Run(s, batches) == s
    decreases |batches|
  {
    if batches != [] {
      RevealIsFinal(OnEntries(s, batches[0]), batches[1..]);
    }
  }

  /** Starting hidden, the element ends visible exactly when some callback
      led with an intersecting entry, and it stays consistent throughout. */
  lemma {:induction false} VisibleIffSomeIntersection(s: RevealState, batches: seq<seq<bool>>)
    requires s == Initial
    ensures Consistent(Run(s, batches))
    ensures Run(s, batches).visible <==>
      exists i :: 0 <= i < |batches| && batches[i] != [] && batches[i][0]
    decreases |batches|
  {
    if batches != [] {
      var next := OnEntries(s, batches[0]);
      if next.visible {
        RevealIsFinal(next, batches[1..]);
      } else {
        VisibleIffSomeIntersection(next, batches[1..]);
        assert forall i :: 1 <= i < |batches| ==> batches[i] == batches[1..][i - 1];
      }
    }
  }

  /** The wrapper element: its class list and whether the observer still
      watches it. */
  class RevealElement {
    var classes: set<string>
    var observed: bool

    function State(): RevealState
      reads this
    {
      RevealState(VisibleClass in classes, observed)
    }

    /** Mounting renders the class "reveal" and starts observing. */
    constructor ()
      ensures classes == {RevealClass} && observed
      ensures State() == Initial
    {
      classes := {RevealClass};
      observed := true;
    }

    /** The observer callback: an intersecting first entry adds "visible" and
        stops the observation; anything else changes nothing. */
    method OnIntersect(entries: seq<bool>)
      modifies this
      ensures State() == OnEntries(old(State()), entries)
      ensures classes == if old(observed) && entries != [] && entries[0] then old(classes) + {VisibleClass} else old(classes)
    {
      if observed && entries != [] && entries[0] {
        classes := classes + {VisibleClass};
        observed := false;
      }
    }

    /** Unmounting stops the observation and leaves the classes alone. */
    method Unmount()
      modifies this
      ensures !observed && classes == old(classes)
    {
      observed := false;
    }
  }
}
