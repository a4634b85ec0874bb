/**
 * The case-detail modal: its three fixed sections, the scroll tracker that
 * picks the highlighted section from the sections' offsets, the sidebar
 * navigator that computes where to scroll the content pane, and the
 * component state around them.
 *
 * Offsets are whole pixels. A section whose element is not attached yet is
 * "unmeasured": the tracker treats it as infinitely far away (`None` here,
 * `Infinity` in the component).
 */
module CaseDetail {
  import opened Wrappers
  import Dom

  datatype SectionId = Problem | Solution | Demo

  datatype Section = Section(id: SectionId, caption: string)

  /** The `sections` table, in declaration order. */
  const Sections: seq<Section> := [
    Section(Problem, "01 Problema"),
    Section(Solution, "02 Solución"),
    Section(Demo, "03 Demostración")
  ]

  /** A section is "at the top" while its offset lies in (-Band, Band]. */
  const Band: int := 150

  /** The navigator leaves a section this many pixels below the pane's top. */
  const NavOffset: int := 120

  /** Position of a section in `Sections`. */
  function Index(id: SectionId): (i: nat)
    ensures i < |Sections| && Sections[i].id == id
  {
    match id
    case Problem => 0
    case Solution => 1
    case Demo => 2
  }

  // ---------------------------------------------------------------------
  // The tracker's fold
  // ---------------------------------------------------------------------

  /** One entry of `sectionPositions`: an id and its offset from the pane top. */
  datatype Position = Position(id: SectionId, top: Option<int>)

  predicate InBand(top: Option<int>)
  {
    top.Some? && -Band < top.value <= Band
  }

  function Abs(x: int): nat
  {
    if x < 0 then -x else x
  }

  /**
   * `Math.abs(a) < Math.abs(b)` where `None` is `Infinity`: nothing is closer
   * than a measured offset from an unmeasured one, and two unmeasured offsets
   * tie.
   */
  predicate Closer(a: Option<int>, b: Option<int>)
  {
    a.Some? && (b.None? || Abs(a.value) < Abs(b.value))
  }

  /** The reducer: an in-band section always replaces, otherwise a strictly closer one does. */
  function Step(prev: Position, curr: Position): Position
  {
    if InBand(curr.top) then curr
    else if Closer(curr.top, prev.top) then curr
    else prev
  }

  /** `ps.reduce(Step)` with no initial value: a left fold that starts from `ps[0]`. */
  function Reduce(ps: seq<Position>): Position
    requires |ps| > 0
  {
    if |ps| == 1 then ps[0] else Step(Reduce(ps[..|ps| - 1]), ps[|ps| - 1])
  }

  /** `i` is the first index whose offset is nearest to the pane top. */
  ghost predicate IsFirstNearest(ps: seq<Position>, i: int)
  {
    0 <= i < |ps| &&
    (forall j :: 0 <= j < |ps| ==> !Closer(ps[j].top, ps[i].top)) &&
    (forall j :: 0 <= j < i ==> Closer(ps[i].top, ps[j].top))
  }

  /** The fold picks one of the positions it was given. */
  lemma {:induction false} ReduceIsElement(ps: seq<Position>)
    requires |ps| > 0
    ensures Reduce(ps) in ps
  {
    if |ps| > 1 {
      var init := ps[..|ps| - 1];
      ReduceIsElement(init);
      assert Reduce(init) in init;
      assert forall x :: x in init ==> x in ps;
    }
  }

  /** Once an in-band position is held, a later out-of-band one cannot displace it. */
  lemma InBandHeld(prev: Position, curr: Position)
    requires InBand(prev.top) && !InBand(curr.top)
    ensures Step(prev, curr) == prev
  {
  }

  /** When some position is in band, the fold picks the last such position. */
  lemma {:induction false} LastInBandWins(ps: seq<Position>, k: nat)
    requires k < |ps| && InBand(ps[k].top)
    requires forall j :: k < j < |ps| ==> !InBand(ps[j].top)
    ensures Reduce(ps) == ps[k]
  {
    if k < |ps| - 1 {
      var init := ps[..|ps| - 1];
      LastInBandWins(init, k);
      InBandHeld(ps[k], ps[|ps| - 1]);
    }
  }

  /** `Closer` is a strict order on offsets, with `None` above every measured offset. */
  lemma CloserOrder(a: Option<int>, b: Option<int>, c: Option<int>)
    requires Closer(a, b) && !Closer(c, b)
    ensures Closer(a, c) && !Closer(c, a)
  {
  }

  /**
   * When no position is in band, the fold picks the nearest one, and among
   * equally near ones the earliest, because the comparison is strict.
   */
  lemma {:induction false} NearestOutsideBand(ps: seq<Position>)
    requires |ps| > 0
    requires forall j :: 0 <= j < |ps| ==> !InBand(ps[j].top)
    ensures exists i :: IsFirstNearest(ps, i) && Reduce(ps) == ps[i]
  {
    var n := |ps|;
    if n == 1 {
      assert IsFirstNearest(ps, 0);
    } else {
      var init := ps[..n - 1];
      NearestOutsideBand(init);
      var i0 :| IsFirstNearest(init, i0) && Reduce(init) == init[i0];
      var best, last := ps[i0], ps[n - 1];
      assert Reduce(ps) == Step(best, last);
      if Closer(last.top, best.top) {
        forall j | 0 <= j < n
          ensures !Closer(ps[j].top, last.top)
          ensures j < n - 1 ==> Closer(last.top, ps[j].top)
        {
          if j < n - 1 {
            assert ps[j] == init[j];
            CloserOrder(last.top, best.top, ps[j].top);
          }
        }
        assert IsFirstNearest(ps, n - 1) && Reduce(ps) == ps[n - 1];
      } else {
        forall j | 0 <= j < n
          ensures !Closer(ps[j].top, best.top)
          ensures j < i0 ==> Closer(best.top, ps[j].top)
        {
          if j < n - 1 {
            assert ps[j] == init[j];
          }
        }
        assert IsFirstNearest(ps, i0) && Reduce(ps) == ps[i0];
      }
    }
  }

  /** With nothing measured, the fold keeps its first position. */
  lemma {:induction false} UnmeasuredKeepsFirst(ps: seq<Position>)
    requires |ps| > 0
    requires forall j :: 0 <= j < |ps| ==> ps[j].top.None?
    ensures Reduce(ps) == ps[0]
  {
    if |ps| > 1 {
      UnmeasuredKeepsFirst(ps[..|ps| - 1]);
    }
  }

  /** An unmeasured position never beats a measured one. */
  lemma {:induction false} MeasuredBeatsUnmeasured(ps: seq<Position>)
    requires |ps| > 0
    requires exists j :: 0 <= j < |ps| && ps[j].top.Some?
    ensures Reduce(ps).top.Some?
  {
    var n := |ps|;
    if n > 1 {
      var init := ps[..n - 1];
      if exists j :: 0 <= j < n - 1 && init[j].top.Some? {
        MeasuredBeatsUnmeasured(init);
      } else {
        UnmeasuredKeepsFirst(init);
        assert ps[n - 1].top.Some?;
      }
    }
  }

  // ---------------------------------------------------------------------
  // handleScroll: from measurements to the active section
  // ---------------------------------------------------------------------

  /** The content pane: the top of its bounding box and its scroll offset. */
  datatype Pane = Pane(top: int, scrollTop: int)

  /**
   * Offset of a section from the pane top. `sectionTops` holds the
   * bounding-box top of every section whose element is attached.
   */
  function RelTop(id: SectionId, paneTop: int, sectionTops: map<SectionId, int>): Option<int>
  {
    if id in sectionTops then Some(sectionTops[id] - paneTop) else None
  }

  /** `sections.map(...)`: one position per declared section, in order. */
  function Positions(paneTop: int, sectionTops: map<SectionId, int>): (ps: seq<Position>)
    ensures |ps| == |Sections|
    ensures forall i :: 0 <= i < |ps| ==> ps[i].id == Sections[i].id
    ensures forall id :: ps[Index(id)].top == RelTop(id, paneTop, sectionTops)
  {
    seq(|Sections|, i requires 0 <= i < |Sections| =>
      Position(Sections[i].id, RelTop(Sections[i].id, paneTop, sectionTops)))
  }

  /** The id that `handleScroll` passes to `setActiveSection`. */
  function Track(paneTop: int, sectionTops: map<SectionId, int>): SectionId
  {
    Reduce(Positions(paneTop, sectionTops)).id
  }

  /** Every entry of the position list sits at the index of its own id. */
  lemma PositionsByIndex(paneTop: int, sectionTops: map<SectionId, int>)
    ensures forall j :: 0 <= j < |Sections| ==>
      Positions(paneTop, sectionTops)[j] == Position(Sections[j].id, RelTop(Sections[j].id, paneTop, sectionTops))
    ensures forall j :: 0 <= j < |Sections| ==> Index(Sections[j].id) == j
  {
  }

  /**
   * The tracker always answers a declared section, with the offset it was
   * given: the position list holds every declared id, so this holds by
   * construction.
   */
  lemma TrackIsDeclared(paneTop: int, sectionTops: map<SectionId, int>)
    ensures Sections[Index(Track(paneTop, sectionTops))].id == Track(paneTop, sectionTops)
    ensures Position(Track(paneTop, sectionTops), RelTop(Track(paneTop, sectionTops), paneTop, sectionTops))
      in Positions(paneTop, sectionTops)
  {
  }

  /** With no section measured, the tracker answers the first section. */
  lemma TrackWithoutMeasurements(paneTop: int)
    ensures Track(paneTop, map[]) == Sections[0].id
  {
    var ps := Positions(paneTop, map[]);
    PositionsByIndex(paneTop, map[]);
    UnmeasuredKeepsFirst(ps);
  }

  /** When any section is measured, the tracker answers a measured one. */
  lemma TrackPrefersMeasured(paneTop: int, sectionTops: map<SectionId, int>)
    requires sectionTops != map[]
    ensures Track(paneTop, sectionTops) in sectionTops
  {
    var ps := Positions(paneTop, sectionTops);
    var s :| s in sectionTops;
    assert ps[Index(s)].top.Some?;
    MeasuredBeatsUnmeasured(ps);
    ReduceIsElement(ps);
    PositionsByIndex(paneTop, sectionTops);
  }

  /** When `s` is in band and no later section is, the tracker answers `s`. */
  lemma TrackLastInBand(paneTop: int, sectionTops: map<SectionId, int>, s: SectionId)
    requires InBand(RelTop(s, paneTop, sectionTops))
    requires forall t :: Index(t) > Index(s) ==> !InBand(RelTop(t, paneTop, sectionTops))
    ensures Track(paneTop, sectionTops) == s
  {
    var ps := Positions(paneTop, sectionTops);
    PositionsByIndex(paneTop, sectionTops);
    forall j | Index(s) < j < |ps|
      ensures !InBand(ps[j].top)
    {
      assert Index(Sections[j].id) > Index(s);
    }
    LastInBandWins(ps, Index(s));
  }

  /**
   * When no section is in band, the tracker answers a section that no other
   * section is strictly nearer than, and that is strictly nearer than every
   * earlier section: ties go to the earlier section.
   */
  lemma TrackNearestOutsideBand(paneTop: int, sectionTops: map<SectionId, int>)
    requires forall t :: !InBand(RelTop(t, paneTop, sectionTops))
    ensures forall t :: !Closer(RelTop(t, paneTop, sectionTops),
                                RelTop(Track(paneTop, sectionTops), paneTop, sectionTops))
    ensures forall t :: Index(t) < Index(Track(paneTop, sectionTops)) ==>
              Closer(RelTop(Track(paneTop, sectionTops), paneTop, sectionTops), RelTop(t, paneTop, sectionTops))
  {
    var ps := Positions(paneTop, sectionTops);
    PositionsByIndex(paneTop, sectionTops);
    forall j | 0 <= j < |ps|
      ensures !InBand(ps[j].top)
    {
      assert ps[j].top == RelTop(Sections[j].id, paneTop, sectionTops);
    }
    NearestOutsideBand(ps);
    var i :| IsFirstNearest(ps, i) && Reduce(ps) == ps[i];
    var id := Track(paneTop, sectionTops);
    assert Index(id) == i;
    forall t
      ensures !Closer(RelTop(t, paneTop, sectionTops), RelTop(id, paneTop, sectionTops))
    {
      assert ps[Index(t)].top == RelTop(t, paneTop, sectionTops);
    }
    forall t | Index(t) < Index(id)
      ensures Closer(RelTop(id, paneTop, sectionTops), RelTop(t, paneTop, sectionTops))
    {
      assert ps[Index(t)].top == RelTop(t, paneTop, sectionTops);
    }
  }

  // ---------------------------------------------------------------------
  // scrollToSection: where the navigator asks the pane to scroll
  // ---------------------------------------------------------------------

  /**
   * The `top` that `scrollToSection(id)` passes to `scrollTo`, or `None` when
   * the section's element or the pane is missing and nothing happens.
   */
  function ScrollTarget(id: SectionId, pane: Option<Pane>, sectionTops: map<SectionId, int>): (target: Option<int>)
    ensures target.Some? <==> pane.Some? && id in sectionTops
    ensures target.Some? && id == Sections[0].id ==> target.value == 0
    ensures target.Some? && id != Sections[0].id ==>
      RelTop(id, pane.value.top, sectionTops).value - (target.value - pane.value.scrollTop) == NavOffset
  {
    if pane.None? || id !in sectionTops then None
    else if id == Problem then Some(0)
    else Some(pane.value.scrollTop + (sectionTops[id] - pane.value.top) - NavOffset)
  }

  /** Scrolling the pane down by `delta` moves every attached section up by `delta`. */
  function ScrolledBy(sectionTops: map<SectionId, int>, delta: int): (moved: map<SectionId, int>)
    ensures moved.Keys == sectionTops.Keys
    ensures forall s :: s in moved ==> moved[s] == sectionTops[s] - delta
  {
    map s | s in sectionTops :: sectionTops[s] - delta
  }

  /**
   * Navigating to a section other than the first and letting the pane land
   * on the target puts the section `NavOffset` pixels below the pane top, in
   * band; the tracker then answers that section unless a later section
   * starts at most `Band - NavOffset` pixels below it.
   */
  lemma NavigationThenTrack(id: SectionId, pane: Pane, sectionTops: map<SectionId, int>)
    requires id != Sections[0].id && id in sectionTops
    requires forall t :: t in sectionTops && Index(t) > Index(id) ==>
      sectionTops[t] - sectionTops[id] > Band - NavOffset
    ensures ScrollTarget(id, Some(pane), sectionTops).Some?
    ensures var landed := ScrolledBy(sectionTops, ScrollTarget(id, Some(pane), sectionTops).value - pane.scrollTop);
      RelTop(id, pane.top, landed) == Some(NavOffset) && Track(pane.top, landed) == id
  {
    var delta := ScrollTarget(id, Some(pane), sectionTops).value - pane.scrollTop;
    var landed := ScrolledBy(sectionTops, delta);
    assert delta == sectionTops[id] - pane.top - NavOffset;
    forall t | Index(t) > Index(id)
      ensures !InBand(RelTop(t, pane.top, landed))
    {
    }
    TrackLastInBand(pane.top, landed, id);
  }

  // ---------------------------------------------------------------------
  // The component
  // ---------------------------------------------------------------------

  /** One mounted `CaseDetail`: its `activeSection` state and the page body it locks. */
  class Component {
    var activeSection: SectionId
    var mounted: bool
    const body: Dom.BodyStyle

    /** First render (`activeSection` starts at the first section) and the mount effect that hides body overflow. */
    constructor (body: Dom.BodyStyle)
      modifies body
      ensures this.body == body && mounted
      ensures activeSection == Sections[0].id
      ensures body.overflow == Dom.Hidden && body.paddingRight == old(body.paddingRight)
    {
      this.body := body;
      activeSection := Problem;
      mounted := true;
      new;
      body.overflow := Dom.Hidden;
    }

    /** The scroll listener: without a pane it returns early, otherwise it writes the tracker's answer. */
    method HandleScroll(pane: Option<Pane>, sectionTops: map<SectionId, int>)
      requires mounted
      modifies this`activeSection
      ensures pane.None? ==> activeSection == old(activeSection)
      ensures pane.Some? ==> activeSection == Track(pane.value.top, sectionTops)
    {
      if pane.Some? {
        activeSection := Track(pane.value.top, sectionTops);
      }
    }

    /**
     * A sidebar choice. The sidebar entries are controlled radios, checked
     * exactly for `activeSection`, and only a change fires the handler: the
     * checked entry scrolls nothing, any other asks the pane to scroll to the
     * navigator's target. It modifies nothing, so `activeSection` waits for
     * the next scroll event.
     */
    method ChooseSection(id: SectionId, pane: Option<Pane>, sectionTops: map<SectionId, int>)
      returns (target: Option<int>)
      ensures id == activeSection ==> target.None?
      ensures id != activeSection ==> target == ScrollTarget(id, pane, sectionTops)
    {
      if id != activeSection {
        target := ScrollTarget(id, pane, sectionTops);
      } else {
        target := None;
      }
    }

    /** The unmount cleanup: the listener is gone and body overflow is reset to `''`. */
    method Unmount()
      requires mounted
      modifies this`mounted, body`overflow
      ensures !mounted && body.overflow == Dom.Unset
    {
      mounted := false;
      body.overflow := Dom.Unset;
    }
  }
}
