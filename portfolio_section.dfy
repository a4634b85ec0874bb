/**
 * The portfolio section: which case study is open in the modal, the page
 * scroll lock that goes with an open modal, and the Escape shortcut.
 *
 * The lock is an effect that React re-runs whenever the selection changes:
 * first the previous run's cleanup, then the new run. A run for an open
 * modal locks the body; a run for a closed modal arms a 10 ms timer that
 * releases it. Timers are modelled by a flag that says one is armed, and
 * its firing is an event of its own.
 */
module PortfolioSection {
  import opened Wrappers
  import Dom
  import CaseDetail

  /** A case study, as far as this section looks at it. */
  datatype Project = Project(id: string, title: string)

  /** Whether a card is highlighted: `selectedProject?.id === project.id`. */
  predicate IsSelected(selected: Option<Project>, card: Project)
  {
    selected.Some? && selected.value.id == card.id
  }

  /** Among cards with distinct ids, at most one is highlighted, and only while a project is selected. */
  lemma AtMostOneCardSelected(cards: seq<Project>, selected: Option<Project>)
    requires forall i, j :: 0 <= i < j < |cards| ==> cards[i].id != cards[j].id
    ensures forall i, j :: 0 <= i < |cards| && 0 <= j < |cards| ==>
      (IsSelected(selected, cards[i]) && IsSelected(selected, cards[j]) ==> i == j)
    ensures forall i :: 0 <= i < |cards| && IsSelected(selected, cards[i]) ==> selected.Some?
  {
  }

  class Component {
    var selected: Option<Project>
    /** The 10 ms reset timer is armed and has not fired or been cleared. */
    var pendingReset: bool
    var mounted: bool
    /** The scrollbar width measured by the run that locked the body. */
    ghost var lockedWidth: int
    const body: Dom.BodyStyle

    /**
     * While mounted and open the body is locked, padded by the scrollbar
     * width measured when it was locked, and no reset is pending;
     * while mounted, closed and with no reset pending it is released; once
     * unmounted no timer is left behind.
     */
    ghost predicate Valid()
      reads this, body
    {
      (mounted && selected.Some? ==>
        body.overflow == Dom.Hidden && body.paddingRight == Dom.Px(lockedWidth) && !pendingReset) &&
      (mounted && selected.None? && !pendingReset ==> body.Released()) &&
      (!mounted ==> !pendingReset)
    }

    /** The modal is open exactly when a project is selected; `CaseDetail` stays mounted until its exit animation ends. */
    predicate IsOpen()
      reads this
    {
      selected.Some?
    }

    /** First render with nothing selected: the effect's first run arms the reset timer. */
    constructor (body: Dom.BodyStyle)
      ensures this.body == body && mounted && Valid()
      ensures selected == None && pendingReset
    {
      this.body := body;
      selected := None;
      mounted := true;
      pendingReset := true;
    }

    /**
     * The effect re-run for a changed selection: the cleanup of the previous
     * run (release the body when it was open, clear the timer when it was
     * closed), then the run for `next` (lock the body with a padding of the
     * scrollbar's width, or arm the reset timer).
     */
    method Commit(next: Option<Project>, innerWidth: int, clientWidth: int)
      requires mounted && Valid() && next != selected
      modifies this`selected, this`pendingReset, this`lockedWidth, body
      ensures Valid() && selected == next && mounted
      ensures next.Some? ==>
        body.overflow == Dom.Hidden && body.paddingRight == Dom.Px(innerWidth - clientWidth) && !pendingReset
      ensures next.None? ==> body.Released() && pendingReset
    {
      if selected.Some? {
        body.overflow := Dom.Unset;
        body.paddingRight := Dom.NoPadding;
      } else {
        pendingReset := false;
      }
      selected := next;
      if next.Some? {
        body.overflow := Dom.Hidden;
        body.paddingRight := Dom.Px(innerWidth - clientWidth);
        lockedWidth := innerWidth - clientWidth;
      } else {
        pendingReset := true;
      }
    }

    /**
     * `handleSelectProject`: the selection becomes `project`, replacing any
     * current one. Choosing the project already selected changes nothing,
     * since the effect only re-runs on a change.
     */
    method SelectProject(project: Project, innerWidth: int, clientWidth: int)
      requires mounted && Valid()
      modifies this`selected, this`pendingReset, this`lockedWidth, body
      ensures Valid() && mounted && selected == Some(project) && IsOpen()
      ensures !pendingReset && body.overflow == Dom.Hidden
      ensures old(selected) != Some(project) ==> body.paddingRight == Dom.Px(innerWidth - clientWidth)
      ensures old(selected) == Some(project) ==> unchanged(body)
    {
      if selected != Some(project) {
        Commit(Some(project), innerWidth, clientWidth);
      }
    }

    /**
     * `handleCloseDetail`: the selection becomes null. Closing an open modal
     * releases the body at once (cleanup of the open run) and arms the reset
     * timer (the closed run); closing a closed one changes nothing.
     */
    method CloseDetail()
      requires mounted && Valid()
      modifies this`selected, this`pendingReset, this`lockedWidth, body
      ensures Valid() && mounted && selected == None && !IsOpen()
      ensures old(selected).Some? ==> body.Released() && pendingReset
      ensures old(selected).None? ==> unchanged(this) && unchanged(body)
    {
      if selected.Some? {
        Commit(None, 0, 0);
      }
    }

    /** `handleKeyDown`: Escape closes the modal while it is open; anything else changes nothing. */
    method KeyDown(key: string)
      requires mounted && Valid()
      modifies this`selected, this`pendingReset, this`lockedWidth, body
      ensures Valid() && mounted
      ensures key == "Escape" && old(selected).Some? ==> selected == None && body.Released() && pendingReset
      ensures !(key == "Escape" && old(selected).Some?) ==> unchanged(this) && unchanged(body)
    {
      if key == "Escape" && selected.Some? {
        CloseDetail();
      }
    }

    /** The 10 ms timer fires: an armed reset releases the body; a cleared one does nothing. */
    method ResetTimerFires()
      requires mounted && Valid()
      modifies this`pendingReset, body
      ensures Valid() && !pendingReset
      ensures old(pendingReset) ==> body.Released()
      ensures !old(pendingReset) ==> unchanged(body)
    {
      if pendingReset {
        body.overflow := Dom.Unset;
        body.paddingRight := Dom.NoPadding;
        pendingReset := false;
      }
    }

    /** Unmounting runs the current run's cleanup: release the body when open, clear the timer when closed. */
    method Unmount()
      requires mounted && Valid()
      modifies this`mounted, this`pendingReset, body
      ensures Valid() && !mounted && !pendingReset
      ensures old(selected).Some? ==> body.Released()
      ensures old(selected).None? ==> unchanged(body)
    {
      if selected.Some? {
        body.overflow := Dom.Unset;
        body.paddingRight := Dom.NoPadding;
      } else {
        pendingReset := false;
      }
      mounted := false;
    }
  }

  /**
   * Closing and reopening before the reset timer fires: the reopening clears
   * the timer, so the body stays locked with the new scrollbar width.
   */
  method ReopenBeforeReset(first: Project, second: Project, innerWidth: int, clientWidth: int)
    returns (overflow: Dom.Overflow, padding: Dom.Padding)
    ensures overflow == Dom.Hidden && padding == Dom.Px(innerWidth - clientWidth)
  {
    var body := new Dom.BodyStyle();
    var section := new Component(body);
    section.SelectProject(first, 0, 0);
    section.CloseDetail();
    section.SelectProject(second, innerWidth, clientWidth);
    section.ResetTimerFires();
    overflow, padding := body.overflow, body.paddingRight;
  }

  /**
   * A whole visit to a case study: the section opens it, the modal mounts
   * and is scrolled, Escape closes it, the 10 ms reset timer fires and the
   * modal unmounts once its exit animation ends. The page body ends released, and the last scroll event
   * decided which section the modal showed as active.
   */
  method VisitCase(project: Project, innerWidth: int, clientWidth: int,
                   pane: CaseDetail.Pane, sectionTops: map<CaseDetail.SectionId, int>)
    returns (released: bool, active: CaseDetail.SectionId)
    ensures released
    ensures active == CaseDetail.Track(pane.top, sectionTops)
  {
    var body := new Dom.BodyStyle();
    var section := new Component(body);
    section.SelectProject(project, innerWidth, clientWidth);
    var modal := new CaseDetail.Component(body);
    modal.HandleScroll(Some(pane), sectionTops);
    section.KeyDown("Escape");
    section.ResetTimerFires();
    modal.Unmount();
    released, active := body.Released(), modal.activeSection;
  }
}
