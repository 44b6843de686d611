/**
 * The dock on the right edge (components/SideDock.tsx): which buttons it shows
 * for the wizard step, which slide-in panel is open, and when it collapses.
 */
module SideDock {
  import opened Basics

  datatype Panel = Chat | Actions | Help

  /** `prev === panel ? null : panel`: the open panel closes, any other one opens in its place. */
  function Toggle(prev: Option<Panel>, panel: Panel): (r: Option<Panel>)
    ensures r == None <==> prev == Some(panel)
    ensures r != None ==> r == Some(panel)
  {
    if prev == Some(panel) then None else Some(panel)
  }

  /** Toggling a panel twice restores the dock exactly when no other panel was open. */
  lemma ToggleTwice(prev: Option<Panel>, panel: Panel)
    ensures Toggle(Toggle(prev, panel), panel) == prev <==> prev == None || prev == Some(panel)
    ensures Toggle(Toggle(None, panel), panel) == None
  {
  }

  /** The Quick Actions button is offered from step 3 (investigation) on. */
  predicate ShowActions(currentStep: int)
  {
    currentStep >= 3
  }

  /** The Timeline button is offered from step 2 on. */
  predicate ShowTimeline(currentStep: int)
  {
    currentStep >= 2
  }

  /**
   * `activePanel !== null || isTimelineOpen`; the timeline flag is an optional
   * prop, and an absent one counts as closed.
   */
  predicate IsCollapsed(activePanel: Option<Panel>, isTimelineOpen: Option<bool>)
  {
    activePanel != None || isTimelineOpen == Some(true)
  }

  /** The buttons shown only grow as the wizard advances. */
  lemma ButtonsMonotone(before: int, after: int)
    requires before <= after
    ensures ShowActions(before) ==> ShowActions(after)
    ensures ShowTimeline(before) ==> ShowTimeline(after)
    ensures ShowActions(before) ==> ShowTimeline(before)
  {
  }

  class Dock {
    var activePanel: Option<Panel>

    constructor ()
      ensures activePanel == None
    {
      activePanel := None;
    }

    method TogglePanel(panel: Panel)
      modifies this
      ensures activePanel == Toggle(old(activePanel), panel)
    {
      activePanel := Toggle(activePanel, panel);
    }

    method ClosePanel()
      modifies this
      ensures activePanel == None
    {
      activePanel := None;
    }

    /** A quick action picked in the panel is passed on to the shell, then the panel closes. */
    method ChooseQuickAction(action: string) returns (forwarded: string)
      modifies this
      ensures forwarded == action
      ensures activePanel == None
    {
      forwarded := action;
      ClosePanel();
    }

    predicate Collapsed(isTimelineOpen: Option<bool>)
      reads this
    {
      IsCollapsed(activePanel, isTimelineOpen)
    }
  }
}
