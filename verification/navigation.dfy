/**
 * The page-level navigation state of the `Portfolio` component in
 * src/Portfolio.jsx: the active section, whether the scroll-to-top button
 * shows, whether the mobile menu is open, and the last scroll offset the
 * page asked the window to scroll to (`window.scrollTo`).
 */
module Navigation {
  import opened Wrappers
  import opened Sections

  /** Height of the fixed header, subtracted when jumping to a section. */
  const HeaderOffset: int := 70

  class PageState {
    var activeSection: Section
    var showScrollTop: bool
    var mobileMenuOpen: bool
    /** The target of the last `window.scrollTo` request, if any. */
    var scrollRequest: Option<int>

    /** Initial state: "home" active, button hidden, menu closed, no scroll requested. */
    constructor ()
      ensures activeSection == Initial && !showScrollTop && !mobileMenuOpen && scrollRequest == None
    {
      activeSection := Initial;
      showScrollTop := false;
      mobileMenuOpen := false;
      scrollRequest := None;
    }

    /**
     * The scroll handler: show the button past 300, then scan the sections
     * in declared order and activate the first whose range holds the
     * offset plus the look-ahead; if none does, the active section stays.
     */
    method HandleScroll(doc: Document, scrollY: int)
      modifies this
      ensures showScrollTop == ShowsScrollTop(scrollY)
      ensures activeSection == ActiveAfterScroll(doc, scrollY, old(activeSection))
      ensures mobileMenuOpen == old(mobileMenuOpen) && scrollRequest == old(scrollRequest)
    {
      showScrollTop := scrollY > ScrollTopThreshold;
      var scrollPosition := scrollY + LookAhead;
      var i := 0;
      while i < |Order|
        invariant 0 <= i <= |Order|
        invariant forall j :: 0 <= j < i ==> !Hit(doc, Order[j], scrollPosition)
        invariant activeSection == old(activeSection)
        modifies this`activeSection
      {
        var section := Order[i];
        if section in doc {
          var element := doc[section];
          if scrollPosition >= element.top && scrollPosition < element.top + element.height {
            activeSection := section;
            FirstHitFound(doc, scrollPosition, Order, i);
            break;
          }
        }
        i := i + 1;
      }
      if i == |Order| {
        FirstHitNone(doc, scrollPosition, Order);
      }
    }

    /**
     * Jump to a section: when the document has it, ask for a scroll to its
     * top less the header height, activate it at once and close the mobile
     * menu; when it does not, nothing happens.
     */
    method ScrollToSection(doc: Document, id: Section)
      modifies this
      ensures id in doc ==> scrollRequest == Some(doc[id].top - HeaderOffset)
                            && activeSection == id && !mobileMenuOpen
      ensures id !in doc ==> scrollRequest == old(scrollRequest) && activeSection == old(activeSection)
                             && mobileMenuOpen == old(mobileMenuOpen)
      ensures showScrollTop == old(showScrollTop)
    {
      if id in doc {
        var element := doc[id];
        scrollRequest := Some(element.top - HeaderOffset);
        activeSection := id;
        mobileMenuOpen := false;
      }
    }

    /** The scroll-to-top button: ask for offset 0 and change nothing else. */
    method ScrollToTop()
      modifies this`scrollRequest
      ensures scrollRequest == Some(0)
    {
      scrollRequest := Some(0);
    }

    /** The mobile menu button flips the menu open or closed. */
    method ToggleMobileMenu()
      modifies this`mobileMenuOpen
      ensures mobileMenuOpen == !old(mobileMenuOpen)
    {
      mobileMenuOpen := !mobileMenuOpen;
    }
  }
}
