/** The mobile navigation: the `is-open` class on the panel and on its
    toggle button, driven by clicks on the button and on the panel. */
module Navigation {

  /** Whether the panel and the toggle button carry `is-open`. */
  datatype NavState = NavState(navOpen: bool, toggleOpen: bool)

  /** A click on the toggle button, or a click inside the panel that is
      (`onLink`) or is not inside a link. */
  datatype NavEvent = ToggleClick | PanelClick(onLink: bool)

  /** The button mirrors the panel. */
  predicate Mirrored(s: NavState) {
    s.toggleOpen == s.navOpen
  }

  /** The effect of one click. */
  function Step(s: NavState, e: NavEvent): NavState {
    match e
    case ToggleClick => NavState(!s.navOpen, !s.navOpen)
    case PanelClick(onLink) => if onLink then NavState(false, false) else s
  }

  /** The effect of a sequence of clicks, in order. */
  function Run(s: NavState, events: seq<NavEvent>): NavState
    decreases |events|
  {
    if events == [] then s else Run(Step(s, events[0]), events[1..])
  }

  /** A click that sets the button's state from the panel's. */
  predicate Synchronising(e: NavEvent) {
    e == ToggleClick || e == PanelClick(true)
  }

  /** Once the button mirrors the panel, every click keeps it so. */
  lemma {:induction false} MirroredPreserved(s: NavState, events: seq<NavEvent>)
    requires Mirrored(s)
    ensures Mirrored(Run(s, events))
    decreases |events|
  {
    if events != [] {
      MirroredPreserved(Step(s, events[0]), events[1..]);
    }
  }

  /** Whatever the initial markup, after the first toggle click or link click
      the button mirrors the panel for good. */
  lemma {:induction false} MirroredAfterSynchronisingClick(s: NavState, events: seq<NavEvent>, i: nat)
    requires i < |events| && Synchronising(events[i])
    ensures Mirrored(Run(s, events))
    decreases |events|
  {
    if i == 0 {
      MirroredPreserved(Step(s, events[0]), events[1..]);
    } else {
      MirroredAfterSynchronisingClick(Step(s, events[0]), events[1..], i - 1);
    }
  }

  /** A link click as the last click leaves the menu closed. */
  lemma {:induction false} LinkClickCloses(s: NavState, events: seq<NavEvent>)
    requires events != [] && events[|events| - 1] == PanelClick(true)
    ensures Run(s, events) == NavState(false, false)
    decreases |events|
  {
    if |events| > 1 {
      LinkClickCloses(Step(s, events[0]), events[1..]);
    }
  }

  /** Two toggle clicks on a mirrored menu restore it. */
  lemma DoubleToggleRestores(s: NavState)
    requires Mirrored(s)
    ensures Run(s, [ToggleClick, ToggleClick]) == s
  {
  }

  /** The panel and the button of one page. */
  class NavMenu {
    var navOpen: bool
    var toggleOpen: bool

    constructor (panelOpen: bool, buttonOpen: bool)
      ensures State() == NavState(panelOpen, buttonOpen)
    {
      navOpen, toggleOpen := panelOpen, buttonOpen;
    }

    function State(): NavState
      reads this
    {
      NavState(navOpen, toggleOpen)
    }

    /** The toggle button's click handler: flips the panel's class and
        forces the button's class to the value `classList.toggle` returned,
        the panel's new state. */
    method OnToggleClick()
      modifies this
      ensures State() == Step(old(State()), ToggleClick)
    {
      navOpen := !navOpen;
      var isOpen := navOpen;
      toggleOpen := isOpen;
    }

    /** The panel's click handler: a click inside a link closes both. */
    method OnPanelClick(onLink: bool)
      modifies this
      ensures State() == Step(old(State()), PanelClick(onLink))
    {
      if !onLink {
        return;
      }
      navOpen := false;
      toggleOpen := false;
    }
  }
}
