# Point One Labs landing page: the interactive logic

The Point One Labs site is a landing page made of React sections. Almost all of it is
markup and styling. This project models in Dafny the few pieces that hold state or
derive values from it, and proves what they promise:

- **The card stack of "Our Ecosystem"** (`CardStack.dfy`, from `HumanoidSection.tsx`).
  The section is three viewport heights tall. While it scrolls past the viewport top,
  the top offset and the viewport height give a clamped progress value. Progress picks
  the active card (0, 1 or 2) using the thresholds 0.35 and 0.7. The active card and
  the section's in-view flag then give each card its visibility, vertical offset,
  opacity and pointer-events. The scroll handler's `ticking` flag is the class
  `ScrollSection`: a scroll event requests an animation frame only while `ticking` is
  false, so at most one frame callback is ever pending.
- **The category filters of the two feature grids** (`CategoryFilter.dfy`, with the
  catalogues in `EcosystemFeatures.dfy` and `Testimonials.dfy`). There are five
  buttons: 'all' and the four categories. Each button shows a count. The grid shows the
  catalogue filtered by the active key. One generic filter is proved
  once, then applied to each catalogue to get its concrete counts.
- **The contact form** (`ContactForm.dfy`, from `DetailsSection.tsx`). A three-field
  record is changed one input at a time. Submitting rejects a missing name or email
  with an error toast. A valid submit shows a success toast and clears the form.
- **The navigation bar** (`Navbar.dfy`, from `Navbar.tsx`). `isScrolled` is
  `scrollY > 10`. The mobile-menu flag is kept in step with the page body's `overflow`
  style ('hidden' exactly while the menu is open) by the toggle, scroll-to-top and
  link handlers.

Each source file with in-place updates becomes a class: `ScrollSection`,
`ContactFormSection` and `NavbarState`. Each method's postcondition ties the new state
to a pure function of the old state (`FrameIndex`, `Changed`, `SubmitStep`, `Toggled`,
`ScrolledToTop`, …). The lemmas are proved about those functions. Browser inputs are
method parameters: the bounding-rectangle top, `innerHeight`, `scrollY`, the
intersection entry, and whether the section element is still mounted. The browser's
queue of requested animation frames is the field `pendingFrames`. The frame callback is
the method `FireFrame`.

Scroll progress is a Dafny `real`, which is exact. The viewport height is a `nat`.
With a viewport height of 0, the source divides by zero. A negative top then gives
Infinity, which the clamp turns into 1. A top of exactly 0 gives NaN, and NaN passes
neither threshold. The model returns progress 1 and 0 for these two cases, which
select the same card as the source.

Scrolling the top from 0 to -1600 in steps of 200 over an 800px viewport gives the
indices 0,0,0,1,1,1,2,2,2. At top -1000 the progress is 1000/1600 = 0.625, which is
below 0.7 (`CardStack.ScrollThroughScenario`).

## Model

| member | source | states |
|---|---|---|
| `CardStack.Progress` | src/components/HumanoidSection.tsx:46-54 | progress always lies in [0, 1], and is 0 whenever the section top is below the viewport top (top > 0) |
| `CardStack.Clamp01` | src/components/HumanoidSection.tsx:53 | the clamped value lies in [0, 1], equals its argument inside [0, 1] and is 1 above it |
| `CardStack.ProgressMeasuresDepth` | src/components/HumanoidSection.tsx:48-53 | until the scroll-through distance (twice the viewport height) is used up, progress times that distance is exactly the scroll depth -top |
| `CardStack.ProgressSaturates` | src/components/HumanoidSection.tsx:53 | progress is 1 if and only if the section has scrolled at least twice the viewport height |
| `CardStack.ProgressMonotone` | src/components/HumanoidSection.tsx:48-54 | scrolling further down (smaller top) never lowers progress, for a fixed viewport height |
| `CardStack.ProgressExamples` | src/components/HumanoidSection.tsx:46-54 | top 0, -800, -1600 and +100 over an 800px viewport give progress 0, 0.5, 1 (clamped) and 0 |
| `CardStack.CardIndex` | src/components/HumanoidSection.tsx:57-63 | the index is 2 iff progress >= 0.7, 1 iff 0.35 <= progress < 0.7, and 0 iff progress < 0.35; boundary values go to the higher index |
| `CardStack.CardIndexCountsThresholds` | src/components/HumanoidSection.tsx:57-63 | the index equals the number of thresholds (0.35, 0.7) that progress has reached: a stateless function, so there is no hysteresis |
| `CardStack.CardIndexMonotone` | src/components/HumanoidSection.tsx:57-63 | the index never decreases as progress increases |
| `CardStack.ProgressReaches` | src/components/HumanoidSection.tsx:48-54 | for a positive viewport height, progress reaches a fraction t of the scroll-through distance iff the top is at or above 2·t viewport heights past the viewport top |
| `CardStack.FrameIndex` | src/components/HumanoidSection.tsx:46-63 | a frame selects card 0 while the top is below the viewport top; for a positive viewport height the index is at least 1 iff the section has scrolled 0.7 viewport heights and 2 iff it has scrolled 1.4; for height 0 the index is 2 iff the top is negative |
| `CardStack.FrameIndexMonotone` | src/components/HumanoidSection.tsx:48-63 | the index a frame assigns never decreases as the section scrolls further down |
| `CardStack.IndexSequenceMonotone` | src/components/HumanoidSection.tsx:48-63 | along any sequence of frames with non-increasing top offsets, the assigned indices form a non-decreasing sequence |
| `CardStack.ScrollThroughScenario` | src/components/HumanoidSection.tsx:46-63 | tops 0, -200, …, -1600 over an 800px viewport assign the indices 0,0,0,1,1,1,2,2,2 |
| `CardStack.Visible` | src/components/HumanoidSection.tsx:84-86 | an upper card shows only from index 1 on; at index 0 only the first card can show (when in view); at index 2 both upper cards show |
| `CardStack.Style` | src/components/HumanoidSection.tsx:119-224 | each card's style carries the visibility its card's rule gives: the in-view flag for the first card, index >= 1 and index >= 2 for the others |
| `CardStack.VisibilityNested` | src/components/HumanoidSection.tsx:84-86 | card 2 is visible iff index >= 1 and card 3 iff index >= 2, so card 3 visible implies card 2 visible |
| `CardStack.FirstCardIgnoresIndex` | src/components/HumanoidSection.tsx:119-126 | the first card's whole style is the same for every index, its visibility is the in-view flag, and it never sets pointer-events |
| `CardStack.UpperCardsInertWhenHidden` | src/components/HumanoidSection.tsx:167-224 | hidden cards 2 and 3 have opacity 0 and pointer-events 'none'; visible ones have opacity 1 and 'auto' |
| `CardStack.UpperCardOffsets` | src/components/HumanoidSection.tsx:172-221 | card 2 sits at 200/55/45 px for index 0/1/2; card 3 at 15 px for index 2 and 200 px otherwise; card 3's 0 px branch is unreachable |
| `CardStack.VisibleForProgress` | src/components/HumanoidSection.tsx:57-86 | card 2 is visible iff progress >= 0.35 and card 3 iff progress >= 0.7 |
| `CardStack.ScrollSection.constructor` | src/components/HumanoidSection.tsx:9-12 | starts with index 0, not in view, not ticking, no frame pending; the at-most-one-pending invariant holds |
| `CardStack.ScrollSection.Scroll` | src/components/HumanoidSection.tsx:39-69 | schedules a frame iff `ticking` was false; scheduling records scrollY and leaves exactly one frame pending; `ticking` is true afterwards; the index and in-view flag are untouched; a stalled section stays stalled |
| `CardStack.ScrollSection.FireFrame` | src/components/HumanoidSection.tsx:43-66 | with no frame pending nothing changes; with the section present the index becomes the one for the sampled geometry and `ticking` clears; with the section absent the index is kept and `ticking` stays set with nothing pending, so no later scroll is processed |
| `CardStack.ScrollSection.Intersect` | src/components/HumanoidSection.tsx:26-32 | the observer callback sets the in-view flag and changes nothing else |
| `CardStack.ScrollSection.CardStyleOf` | src/components/HumanoidSection.tsx:83-86 | a card's current style is visible exactly as the nesting rule says for the current index and in-view flag |
| `CardStack.SectionRemovedScenario` | src/components/HumanoidSection.tsx:40-66 | once a frame fires after the section element is gone, a later scroll schedules nothing and a frame fired afterwards, for any geometry, leaves the first card active |
| `CategoryFilter.Filter` | src/components/EcosystemFeatures.tsx:217 | the filtered list is no longer than the catalogue, holds only features of the category, and holds every feature of the catalogue with that category |
| `CategoryFilter.FilterConcat` | src/components/EcosystemFeatures.tsx:217 | filtering distributes over concatenation, so kept features stay in their original relative order |
| `CategoryFilter.FilterKeepsMatching` | src/components/EcosystemFeatures.tsx:217 | a list whose features all have the category is returned unchanged |
| `CategoryFilter.FilterDropsOthers` | src/components/EcosystemFeatures.tsx:217 | a list with no feature of the category filters to the empty list |
| `CategoryFilter.FilterSingleton` | src/components/EcosystemFeatures.tsx:217 | a one-feature list is kept iff its category matches; with filtering distributing over concatenation this fixes the result's order and multiplicity |
| `CategoryFilter.FilterIdempotent` | src/components/Testimonials.tsx:250 | filtering an already filtered list by the same category returns it unchanged |
| `CategoryFilter.CategoryCountsSum` | src/components/EcosystemFeatures.tsx:207-213 | every feature has one of four categories, so the four category counts add up to the catalogue length |
| `CategoryFilter.Shown` | src/components/EcosystemFeatures.tsx:215-217 | `filteredFeatures`: never longer than the catalogue; the 'all' key gives the catalogue itself; a category key gives exactly the catalogue's features of that category (also Testimonials.tsx:248-250) |
| `CategoryFilter.ShownSelects` | src/components/EcosystemFeatures.tsx:215-217 | the 'all' key shows the catalogue unchanged; a category key shows exactly the catalogue's features of that category (the same code is at Testimonials.tsx:248-250) |
| `CategoryFilter.InitiallyAll` | src/components/EcosystemFeatures.tsx:204 | the active key starts as 'all', which shows the whole catalogue (also Testimonials.tsx:237) |
| `CategoryFilter.ShownIdempotent` | src/components/Testimonials.tsx:248-250 | applying the shown-features selection twice with the same key gives the same list as once |
| `CategoryFilter.Tabs` | src/components/EcosystemFeatures.tsx:207-213 | there are exactly five filter buttons, keyed 'all', common, agency, studios and chaos in that order, and each button's count is the number of features the grid shows for its key |
| `CategoryFilter.TabsCoverKeys` | src/components/EcosystemFeatures.tsx:253-256 | every key ('all' and the four categories) has exactly one button, so the active key always names a button |
| `CategoryFilter.TabCountsMatchShown` | src/components/Testimonials.tsx:240-250 | each button's count equals the number of features shown once it is active, and the four category counts sum to the 'all' count |
| `CategoryFilter.Click` | src/components/EcosystemFeatures.tsx:256 | clicking a button makes its key active, and the grid then holds as many features as the count on that button |
| `EcosystemFeatures.ShownPerCategory` | src/components/EcosystemFeatures.tsx:14-142 | for this catalogue, each category's grid is exactly that category's block of features, in catalogue order |
| `EcosystemFeatures.TabCounts` | src/components/EcosystemFeatures.tsx:207-213 | the buttons show all=15, common=3, agency=4, studios=4, chaos=4 |
| `Testimonials.ShownPerCategory` | src/components/Testimonials.tsx:15-135 | for this catalogue, each category's grid is exactly that category's block of features, in catalogue order |
| `Testimonials.TabCounts` | src/components/Testimonials.tsx:240-246 | the buttons show all=14, common=3, agency=4, studios=3, chaos=4 |
| `ContactForm.Changed` | src/components/DetailsSection.tsx:13-22 | an input event sets exactly the named field to the new value and leaves the other two unchanged |
| `ContactForm.ChangesCommute` | src/components/DetailsSection.tsx:18-21 | edits to two different fields give the same record in either order |
| `ContactForm.ChangeOverrides` | src/components/DetailsSection.tsx:18-21 | a later edit of a field overrides an earlier edit of the same field |
| `ContactForm.SubmitStep` | src/components/DetailsSection.tsx:23-41 | a submit gives exactly one toast: an error toast iff the name or the email is empty, and then the record is unchanged; otherwise a success toast, and then all three fields are reset to "" |
| `ContactForm.CompanyNeverBlocks` | src/components/DetailsSection.tsx:27 | the company field never changes the outcome of a submit: only the name and the email are checked |
| `ContactForm.ResubmitRejected` | src/components/DetailsSection.tsx:27-40 | right after a successful submit, an immediate second submit is rejected and leaves the empty form as it is |
| `ContactForm.FilledFormSubmits` | src/components/DetailsSection.tsx:13-40 | filling a fresh form with any non-empty name and email, and any company, then submitting gives success and an empty form |
| `ContactForm.ContactFormSection.constructor` | src/components/DetailsSection.tsx:8-12 | all three fields start empty |
| `ContactForm.ContactFormSection.Change` | src/components/DetailsSection.tsx:13-22 | the new record is the old one with the named field changed |
| `ContactForm.ContactFormSection.Submit` | src/components/DetailsSection.tsx:23-41 | the toast returned and the new record are those of the submit step applied to the old record |
| `Navbar.ScrolledBoundary` | src/components/Navbar.tsx:15 | the bar is scrolled iff scrollY > 10; exactly 10 is not scrolled; the flag never turns off as the offset grows |
| `Navbar.IsScrolled` | src/components/Navbar.tsx:15 | the bar is scrolled exactly at offsets above 10px, so never at the top of the page |
| `Navbar.Consistent` | src/components/Navbar.tsx:25-37 | in a consistent state the body's overflow is 'hidden' iff the menu is open and '' iff it is closed |
| `Navbar.Toggled` | src/components/Navbar.tsx:22-26 | toggling flips the menu flag and leaves overflow 'hidden' when it opens and '' when it closes |
| `Navbar.ScrolledToTop` | src/components/Navbar.tsx:28-39 | scroll-to-top always leaves the menu closed, and changes nothing when it was already closed |
| `Navbar.SectionLinkClicked` | src/components/Navbar.tsx:231-256 | the Services, Contact and Get Started links leave the menu closed with overflow '', a consistent state, from any prior state |
| `Navbar.HomeLinkClicked` | src/components/Navbar.tsx:216-221 | the Home link (scroll to top, then close) leaves the menu closed with overflow '', a consistent state, from any prior state |
| `Navbar.ToggleTwice` | src/components/Navbar.tsx:22-26 | from a consistent state, toggling twice restores the original flag and overflow |
| `Navbar.HandlersPreserveConsistency` | src/components/Navbar.tsx:22-39 | toggle, scroll-to-top, the section links and the Home link each keep overflow 'hidden' iff the menu is open |
| `Navbar.ScrollToTopCloses` | src/components/Navbar.tsx:34-38 | scroll-to-top closes an open menu and clears overflow; on a closed menu it changes neither |
| `Navbar.LinksClose` | src/components/Navbar.tsx:216-256 | every mobile-menu link leaves the menu closed and overflow '' whatever the prior state |
| `Navbar.MenuButtonLabel` | src/components/Navbar.tsx:177 | the menu button's label is "Close menu" iff the menu is open, and "Open menu" iff it is closed |
| `Navbar.NavbarState.constructor` | src/components/Navbar.tsx:9-10 | starts not scrolled, with the menu closed and overflow '', which is consistent |
| `Navbar.NavbarState.OnScroll` | src/components/Navbar.tsx:14-16 | sets the scrolled flag to scrollY > 10 and leaves the menu state alone |
| `Navbar.NavbarState.ToggleMenu` | src/components/Navbar.tsx:22-26 | the new menu state is the toggled old one, and is consistent whatever came before |
| `Navbar.NavbarState.ScrollToTop` | src/components/Navbar.tsx:28-39 | the new menu state is the scrolled-to-top old one; a consistent state stays consistent |
| `Navbar.NavbarState.HomeLinkClick` | src/components/Navbar.tsx:216-221 | scroll-to-top followed by an explicit close: the menu ends closed with overflow '' |
| `Navbar.NavbarState.SectionLinkClick` | src/components/Navbar.tsx:231-256 | the Services, Contact and Get Started links close the menu and clear overflow |
| `Navbar.NavbarState.ButtonLabel` | src/components/Navbar.tsx:177 | the current label is "Close menu" iff the menu is open |

## Left out

- CardStack.Progress: JavaScript doubles are replaced by exact reals, which can differ from the source when a quotient lands next to 0.35 or 0.7. For a viewport height of 0 and a top of 0, the source's NaN progress is represented as 0, which selects the same card.
- Markup, Tailwind classes, theme-dependent colours, gradients, the cards' `scale`, `zIndex` and transitions, and the `animate-card-enter` class are left out. They are presentation; the animation class is present exactly when the card is visible.
- Browser facilities are inputs, not models. These are `getBoundingClientRect`, `innerHeight`, `window.scrollY`, `requestAnimationFrame` (the `pendingFrames` field plus `FireFrame`) and the IntersectionObserver (`Intersect`). Registering and removing the listeners on mount and unmount (HumanoidSection.tsx:72-80) is not modelled. The mount-time call `handleScroll()` is a first call of `Scroll`.
- `lastScrollY` is kept as a field that is written and never read, as in the source.
- React `setState` is modelled as an immediate assignment. Batching, and handlers that read a stale `isMenuOpen` from an older render, are not modelled.
- `window.scrollTo` (the smooth scroll itself) is browser I/O. Only its effect on the menu state is modelled.
- The `sonner` toasts are returned as `Toast` values. Showing them is not modelled.
- The browser's own form checks are not modelled: the `required` attribute and email-format checking can stop a submit before the handler runs. The handler's own check is modelled.
- `handleChange` is modelled for the three input names the form has (`fullName`, `email`, `company`). Inputs with other names do not exist.
- The body's `overflow` is assumed to start as ''. No modelled code sets it otherwise.
- The hover state of the feature cards in Testimonials.tsx and the default background image of its FeatureCard are UI-only. The feature text, icons and gradients are kept in the catalogues as data, but nothing is proved about them.
- Hero.tsx is not part of this model: it fetches a Lottie file over the network and computes tilt and parallax offsets in floating point. Features.tsx and CTA.tsx are not part of it either: their one-shot fade-ins are observer, timer and class-list plumbing. Footer.tsx, ImageShowcaseSection.tsx, MadeByHumans.tsx, SpecsSection.tsx and ThemeToggle.tsx are not part of it: they are static content, or depend on a theme context that is not shown.
