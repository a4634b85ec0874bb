# Case-study modal of a portfolio site, in Dafny

The site lists case studies as cards. Choosing a card opens a modal with the
full case study. The modal has three fixed sections: problem, solution and
demo. A sidebar highlights the section the reader is looking at, and clicking
a sidebar entry scrolls the content pane to that section. While the modal is
open the page body is scroll-locked. The same pages use a shared button
component that renders a download anchor, a link anchor or a `<button>`.

This project models the three pieces of the site that make decisions:

- `case_detail.dfy` (module `CaseDetail`): the sections table and the scroll
  tracker. The tracker maps each section to its offset from the pane top and
  folds that list with the band-or-nearest rule. The module also holds the
  navigator's scroll target and the modal component: its `activeSection`
  state, its scroll listener, its sidebar choice and its body-overflow
  mount/unmount effect.
- `portfolio_section.dfy` (module `PortfolioSection`): the selected project,
  the select, close and Escape handlers, and the scroll-lock effect. The
  effect locks the body while a project is open. It releases the body on
  cleanup and again when a 10 ms timer fires, and reopening clears that
  timer. The card highlight test is here too.
- `button.dfy` (module `Button`): the button's decision table from props to
  element kind, attributes and children, and its class list.
- `dom.dfy` (module `Dom`): `document.body.style` as one shared object. Both
  components write to it.
- `wrappers.dfy` (module `Wrappers`): `Option`.

Offsets are whole pixels. A section whose element is not attached is
"unmeasured" (`None`); the component gives it `Infinity`. Browser measurements
(`getBoundingClientRect`, `innerWidth`, `clientWidth`, the pane's
`scrollTop`) are parameters of the events that read them. The 10 ms timer is a
flag that says it is armed, and its firing is an event of its own.

The tracker code has no near-bottom override, no flag that suppresses it
during a programmatic scroll, no settle timer, no clamping of the scroll
target and no immediate `activeSection` write on navigation, and the model has
none of these either. Its `reduce` replaces the held section with every
in-band section it meets, so it picks the *last* section in the band, not the
first (`LastInBandWins`).

## Model

| member | source | states |
|---|---|---|
| `CaseDetail.ReduceIsElement` | src/components/ui/CaseDetail.js:102-106 | the fold's answer is one of the positions it was given |
| `CaseDetail.InBandHeld` | src/components/ui/CaseDetail.js:103-105 | once an in-band position is held, a later out-of-band position cannot replace it |
| `CaseDetail.CloserOrder` | src/components/ui/CaseDetail.js:104 | the `Math.abs` comparison, with unmeasured as infinity, is a strict order: strictly nearer than something no nearer than `b` means strictly nearer than it |
| `CaseDetail.LastInBandWins` | src/components/ui/CaseDetail.js:102-106 | if position `k` is in the band (-150, 150] and no later one is, the fold answers position `k` |
| `CaseDetail.NearestOutsideBand` | src/components/ui/CaseDetail.js:102-106 | if no position is in the band, the fold answers one that nothing is strictly nearer than, and that is strictly nearer than every earlier one, so ties go to the earlier position |
| `CaseDetail.UnmeasuredKeepsFirst` | src/components/ui/CaseDetail.js:89-106 | if no position is measured, the fold answers the first position |
| `CaseDetail.MeasuredBeatsUnmeasured` | src/components/ui/CaseDetail.js:89-106 | if any position is measured, the fold answers a measured one |
| `CaseDetail.Index` | src/components/ui/CaseDetail.js:38-42 | each section id sits at one position of the declared table |
| `CaseDetail.Positions` | src/components/ui/CaseDetail.js:89-99 | one position per declared section, in declaration order; each offset is the section top minus the pane top, or unmeasured when the element is missing |
| `CaseDetail.TrackIsDeclared` | src/components/ui/CaseDetail.js:89-108 | the tracker answers a declared section, with the offset it was given; this holds by construction, as the list maps every declared section |
| `CaseDetail.TrackWithoutMeasurements` | src/components/ui/CaseDetail.js:89-108 | with no section measured, the tracker answers the first section, `problem` |
| `CaseDetail.TrackPrefersMeasured` | src/components/ui/CaseDetail.js:89-108 | when any section is measured, the tracker answers a measured section |
| `CaseDetail.TrackLastInBand` | src/components/ui/CaseDetail.js:89-108 | when a section is in the band and no later section is, the tracker answers that section |
| `CaseDetail.TrackNearestOutsideBand` | src/components/ui/CaseDetail.js:89-108 | when no section is in the band, the tracker answers a nearest section, and the earliest of equally near ones |
| `CaseDetail.ScrollTarget` | src/components/ui/CaseDetail.js:60-80 | there is a target exactly when the section element and the pane exist; `problem` targets 0; any other section targets the scroll offset that leaves it 120 px below the pane top, with no clamping |
| `CaseDetail.NavigationThenTrack` | src/components/ui/CaseDetail.js:60-108 | after a pane lands on the target for a section other than `problem`, that section is 120 px below the pane top, in the band; the tracker then answers it unless a later section starts at most 30 px below it |
| `CaseDetail.Component.constructor` | src/components/ui/CaseDetail.js:45-121 | `activeSection` starts at `problem`, the first declared section, and mounting sets body overflow to hidden |
| `CaseDetail.Component.HandleScroll` | src/components/ui/CaseDetail.js:84-109 | with no pane nothing changes; otherwise `activeSection` becomes the tracker's answer |
| `CaseDetail.Component.ChooseSection` | src/components/ui/CaseDetail.js:244-252 | the sidebar radios are checked for `activeSection` and fire only on a change: choosing the active section scrolls nothing; choosing another yields the navigator's scroll target; nothing is modified, so `activeSection` is not written |
| `CaseDetail.Component.Unmount` | src/components/ui/CaseDetail.js:110-125 | unmounting detaches the listener and resets body overflow to `''` |
| `PortfolioSection.AtMostOneCardSelected` | src/components/sections/PortfolioSection.js:137-143 | a card is highlighted iff its id equals the selected project's id; among cards with distinct ids at most one is, and none while nothing is selected |
| `PortfolioSection.Component.constructor` | src/components/sections/PortfolioSection.js:61-82 | nothing is selected at first, and the effect's first run arms the reset timer |
| `PortfolioSection.Component.Commit` | src/components/sections/PortfolioSection.js:64-88 | a changed selection runs the old run's cleanup, then the new run: open locks the body with padding `innerWidth - clientWidth` px and no timer; closed releases the body and arms the timer; the invariant `Valid` (open: locked with the measured width and no timer; closed with no timer: released; unmounted: no timer) is kept |
| `PortfolioSection.Component.SelectProject` | src/components/sections/PortfolioSection.js:95-97 | the selection becomes the project, replacing any current one; the modal is open, the body locked and no reset pending; the padding is the new scrollbar width unless the same project was already open |
| `PortfolioSection.Component.CloseDetail` | src/components/sections/PortfolioSection.js:91-93 | the close button and the backdrop call it: the selection becomes null; closing an open modal releases the body and arms the timer; closing a closed one changes nothing |
| `PortfolioSection.Component.KeyDown` | src/components/sections/PortfolioSection.js:99-103 | Escape closes the modal only while a project is selected; any other key, or Escape while closed, changes nothing |
| `PortfolioSection.Component.ResetTimerFires` | src/components/sections/PortfolioSection.js:74-81 | an armed timer releases the body when it fires; a cleared one does nothing |
| `PortfolioSection.Component.Unmount` | src/components/sections/PortfolioSection.js:74-88 | unmounting runs the current cleanup: release the body when open, clear the timer when closed; no timer is left behind |
| `PortfolioSection.ReopenBeforeReset` | src/components/sections/PortfolioSection.js:74-81 | closing and reopening before the timer fires keeps the body locked with the new width, because reopening cleared the timer |
| `PortfolioSection.VisitCase` | src/components/sections/PortfolioSection.js:148-158 | open, scroll, Escape, the reset timer fires, the modal unmounts after its exit animation: the page body ends released, and the modal showed the tracker's answer for the last scroll |
| `Button.IsInternalLink` | src/components/ui/Button.js:78 | a link is internal iff it starts with `#` or `/` |
| `Button.Render` | src/components/ui/Button.js:41-101 | an anchor iff `href` or `link` is truthy; `href` wins, with its download name; a link gets `_self` and no rel iff it is internal, else `_blank` and `noopener noreferrer`; anchors get tabIndex -1 while loading and 0 otherwise; else a `button` of type `button`, disabled iff loading; loading withholds onClick and sets aria-disabled; aria-label is `ariaLabel` when truthy, else the text; a spinner iff loading, an icon only when not loading and given |
| `Button.HrefTakesPrecedence` | src/components/ui/Button.js:62-77 | with a truthy `href`, the `link` prop does not change what is rendered |
| `Button.ClassList` | src/components/ui/Button.js:34-42 | the class list is the base classes, then those of the variant (`primary` by default), then the caller's extra classes |

## Left out

- Animation and styling: the framer-motion variants, the inline CSS, the glider transforms and the modal markup.
- Layout and smooth scrolling: offsets are whole-pixel inputs rather than floating-point rectangles, and the scroll target is an output value.
- The browser clamps `scrollTo` to the pane's range. `NavigationThenTrack` assumes the pane lands exactly on the target.
- `CaseDetail.Component.ChooseSection`: returns the target instead of moving the pane, since the pane's scroll position is an input of the model.
- The image `onError` fallback in the modal mutates the DOM directly and is not modelled.
- Event-listener registration and React's effect scheduling. Each handler and effect run is an explicit method. Events after unmount are excluded by `requires mounted`, as React does not dispatch them.
- When the modal unmounts is decided by the exit animation. `CaseDetail.Component.Unmount` is an event the caller places.
- React compares the selected project by identity. The model compares `Project` values, so two different objects with equal fields count as one.
- Button: `variant` is one of the two declared values. An undeclared one would put `undefined` into the class string. `download`, the icon and `onClick` are passed through and not inspected.
- `Button.ClassList`: splits the class string on spaces only and keeps repeated names. The browser's class list also splits on other ASCII whitespace, which none of the component's own strings contain, and drops duplicate names.
- The animated headline, the company carousel, the static data tables, routing and the other presentational sections hold no decision logic and are not part of this model.
