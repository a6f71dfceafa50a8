/**
 The navigation bar: a "scrolled" flag that switches the bar's background, and the
 mobile menu, whose open flag is kept in step with the page body's `overflow` style
 so that the page behind an open menu does not scroll.
 */
module Navbar {

  /** Scroll offset, in px, beyond which the bar counts as scrolled. */
  const ScrollThreshold: real := 10.0

  /** The two values the handlers give the body's overflow style. */
  const OverflowHidden: string := "hidden"
  const OverflowCleared: string := ""

  function IsScrolled(scrollY: real): (scrolled: bool)
    ensures scrolled ==> scrollY > 0.0
    ensures scrollY <= ScrollThreshold ==> !scrolled
    ensures scrollY > ScrollThreshold ==> scrolled
  {
    scrollY > ScrollThreshold
  }

  /** An offset of exactly 10 is not scrolled; the flag never turns off as the offset grows. */
  lemma ScrolledBoundary(y1: real, y2: real)
    requires y1 <= y2
    ensures !IsScrolled(ScrollThreshold)
    ensures IsScrolled(y1) ==> IsScrolled(y2)
    ensures IsScrolled(y2) <==> y2 > 10.0
  {
  }

  /** The mobile menu flag together with the body's overflow style. */
  datatype MenuState = MenuState(open: bool, bodyOverflow: string)

  const Closed: MenuState := MenuState(false, OverflowCleared)

  /** The body scrolls exactly when the menu is closed. */
  predicate Consistent(s: MenuState)
    ensures Consistent(s) ==> (s.bodyOverflow == OverflowHidden <==> s.open)
    ensures Consistent(s) ==> (s.bodyOverflow == OverflowCleared <==> !s.open)
  {
    s.bodyOverflow == (if s.open then OverflowHidden else OverflowCleared)
  }

  /** `toggleMenu`: flip the flag and set the overflow from the new flag. */
  function Toggled(s: MenuState): (r: MenuState)
    ensures r.open == !s.open
    ensures Consistent(r)
  {
    MenuState(!s.open, if !s.open then OverflowHidden else OverflowCleared)
  }

  /** `scrollToTop`: close the menu only if it is open. */
  function ScrolledToTop(s: MenuState): (r: MenuState)
    ensures !r.open
    ensures !s.open ==> r == s
  {
    if s.open then Closed else s
  }

  /** The Services, Contact and Get Started links of the mobile menu. */
  function SectionLinkClicked(s: MenuState): (r: MenuState)
    ensures !r.open && r.bodyOverflow == OverflowCleared
    ensures Consistent(r)
  {
    Closed
  }

  /** The Home link of the mobile menu: scroll to the top, then close. */
  function HomeLinkClicked(s: MenuState): (r: MenuState)
    ensures !r.open && r.bodyOverflow == OverflowCleared
    ensures Consistent(r)
  {
    SectionLinkClicked(ScrolledToTop(s))
  }

  /** Toggling twice restores a consistent state. */
  lemma ToggleTwice(s: MenuState)
    requires Consistent(s)
    ensures Toggled(Toggled(s)) == s
  {
  }

  /** Every handler keeps the overflow style in step with the flag. */
  lemma HandlersPreserveConsistency(s: MenuState)
    requires Consistent(s)
    ensures Consistent(Toggled(s))
    ensures Consistent(ScrolledToTop(s))
    ensures Consistent(SectionLinkClicked(s))
    ensures Consistent(HomeLinkClicked(s))
  {
  }

  /** Scrolling to the top from an open menu closes it and releases the body; from a closed menu it changes nothing. */
  lemma ScrollToTopCloses(s: MenuState)
    requires Consistent(s)
    ensures s.open ==> ScrolledToTop(s) == MenuState(false, OverflowCleared)
    ensures !s.open ==> ScrolledToTop(s) == s
  {
  }

  /** Every mobile link leaves the menu closed and the body scrollable, whatever came before. */
  lemma LinksClose(s: MenuState)
    ensures SectionLinkClicked(s) == MenuState(false, OverflowCleared)
    ensures HomeLinkClicked(s) == MenuState(false, OverflowCleared)
  {
  }

  /** The menu button's `aria-label`. */
  function MenuButtonLabel(open: bool): (text: string)
    ensures text == "Close menu" <==> open
    ensures text == "Open menu" <==> !open
  {
    if open then "Close menu" else "Open menu"
  }

  /** The navigation bar's state, including the page body's overflow style it writes. */
  class NavbarState {
    var isScrolled: bool
    var isMenuOpen: bool
    var bodyOverflow: string

    function Menu(): MenuState
      reads this
    {
      MenuState(isMenuOpen, bodyOverflow)
    }

    ghost predicate Valid()
      reads this
    {
      Consistent(Menu())
    }

    constructor ()
      ensures Valid()
      ensures !isScrolled && Menu() == Closed
    {
      isScrolled := false;
      isMenuOpen := false;
      bodyOverflow := OverflowCleared;
    }

    /** The window scroll listener. */
    method OnScroll(scrollY: real)
      modifies this
      ensures isScrolled == IsScrolled(scrollY)
      ensures Menu() == old(Menu())
    {
      isScrolled := scrollY > ScrollThreshold;
    }

    method ToggleMenu()
      modifies this
      ensures Valid()
      ensures Menu() == Toggled(old(Menu()))
      ensures isScrolled == old(isScrolled)
    {
      var wasOpen := isMenuOpen;
      isMenuOpen := !wasOpen;
      bodyOverflow := if !wasOpen then OverflowHidden else OverflowCleared;
    }

    /** Used by the logo, the desktop Home link and the mobile Home link; the smooth scroll itself is the browser's. */
    method ScrollToTop()
      modifies this
      ensures old(Valid()) ==> Valid()
      ensures Menu() == ScrolledToTop(old(Menu()))
      ensures isScrolled == old(isScrolled)
    {
      if isMenuOpen {
        isMenuOpen := false;
        bodyOverflow := OverflowCleared;
      }
    }

    method HomeLinkClick()
      modifies this
      ensures Valid()
      ensures Menu() == HomeLinkClicked(old(Menu()))
      ensures isScrolled == old(isScrolled)
    {
      ScrollToTop();
      isMenuOpen := false;
      bodyOverflow := OverflowCleared;
    }

    method SectionLinkClick()
      modifies this
      ensures Valid()
      ensures Menu() == SectionLinkClicked(old(Menu()))
      ensures isScrolled == old(isScrolled)
    {
      isMenuOpen := false;
      bodyOverflow := OverflowCleared;
    }

    function ButtonLabel(): (text: string)
      reads this
      ensures text == "Close menu" <==> isMenuOpen
    {
      MenuButtonLabel(isMenuOpen)
    }
  }
}
