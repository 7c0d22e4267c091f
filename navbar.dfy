/**
 * The fixed navigation bar (src/components/Navbar.jsx): the scroll listener
 * that sets the `scrolled` flag, the page progress bar and the scroll-spy
 * `activeSection`, and the mobile menu's open flag.
 */
module Navbar {
  import opened JsMath
  import opened Wrappers

  /** The section ids of `navItems`, in order. */
  const NavIds: seq<string> :=
    ["home", "about", "services", "skills", "projects", "education", "testimonials", "contact"]

  /** A page offset past this many pixels counts as scrolled. */
  const ScrolledThreshold: real := 50.0
  /** The viewport line, in pixels from the top, that the scroll-spy tests. */
  const SpyLine: real := 100.0

  /** The part of `getBoundingClientRect()` the scroll-spy reads. */
  datatype Rect = Rect(top: real, bottom: real)

  /**
   * Whether the section `id` is under the spy line. `elements` stands for
   * `document.getElementById`: an id with no element in the document is
   * absent from the map and never matches.
   */
  predicate SpansLine(id: string, elements: map<string, Rect>)
  {
    id in elements && elements[id].top <= SpyLine && elements[id].bottom >= SpyLine
  }

  /** The index `Array.prototype.find` stops at: the first id that spans the line. */
  function FirstSpanning(ids: seq<string>, elements: map<string, Rect>): (r: Option<nat>)
    ensures r.Some? ==> r.value < |ids| && SpansLine(ids[r.value], elements)
    ensures r.Some? ==> forall j :: 0 <= j < r.value ==> !SpansLine(ids[j], elements)
    ensures r.None? ==> forall j :: 0 <= j < |ids| ==> !SpansLine(ids[j], elements)
  {
    if |ids| == 0 then None
    else if SpansLine(ids[0], elements) then Some(0)
    else
      match FirstSpanning(ids[1..], elements)
      case None => None
      case Some(k) => Some(k + 1)
  }

  /** The `find` over the section ids. */
  function FindSection(elements: map<string, Rect>): (r: Option<string>)
    ensures r.Some? ==> r.value in NavIds && SpansLine(r.value, elements)
    ensures r.None? <==> forall j :: 0 <= j < |NavIds| ==> !SpansLine(NavIds[j], elements)
  {
    match FirstSpanning(NavIds, elements)
    case None => None
    case Some(k) => Some(NavIds[k])
  }

  /** The scroll-spy's next value: the found id, or the previous value when none spans the line. */
  function NextActive(previous: string, elements: map<string, Rect>): (r: string)
    ensures r == previous || r in NavIds
    ensures (forall j :: 0 <= j < |NavIds| ==> !SpansLine(NavIds[j], elements)) ==> r == previous
    ensures forall k :: 0 <= k < |NavIds| ==>
              (SpansLine(NavIds[k], elements) && forall j :: 0 <= j < k ==> !SpansLine(NavIds[j], elements))
              ==> r == NavIds[k]
  {
    match FindSection(elements)
    case Some(id) => id
    case None => previous
  }

  /** `scrolled`: strictly more than 50 pixels down. */
  function IsScrolled(scrollY: real): (scrolled: bool)
    ensures !scrolled <==> scrollY <= 50.0
  {
    scrollY > ScrolledThreshold
  }

  /**
   * `(scrollY / totalHeight) * 100`, where `totalHeight` is
   * `scrollHeight - innerHeight`. A zero total divides by zero and gives a
   * non-finite number in JavaScript, shown here as None.
   */
  function ScrollProgress(scrollY: real, totalHeight: real): (r: Option<real>)
    ensures r.None? <==> totalHeight == 0.0
    ensures r.Some? ==> r.value * totalHeight == scrollY * 100.0
  {
    if totalHeight == 0.0 then None else Some((scrollY / totalHeight) * 100.0)
  }

  /** On a scrollable page, inside its range, the progress is a percentage: 0 at the top, 100 at the bottom. */
  lemma ScrollProgressIsPercentage(scrollY: real, totalHeight: real)
    requires totalHeight > 0.0 && 0.0 <= scrollY <= totalHeight
    ensures ScrollProgress(scrollY, totalHeight).Some?
    ensures 0.0 <= ScrollProgress(scrollY, totalHeight).value <= 100.0
    ensures scrollY == 0.0 ==> ScrollProgress(scrollY, totalHeight).value == 0.0
    ensures scrollY == totalHeight ==> ScrollProgress(scrollY, totalHeight).value == 100.0
  {
    QuotientMonotone(0.0, scrollY, totalHeight);
    QuotientMonotone(scrollY, totalHeight, totalHeight);
  }

  class NavbarState {
    var isOpen: bool
    var scrolled: bool
    var activeSection: string
    /** The progress bar's width in percent; None for a non-finite value. */
    var scrollProgress: Option<real>

    /** The active id is always one of the sections. */
    ghost predicate Valid()
      reads this
    {
      activeSection in NavIds
    }

    /** The scroll-to-top button is rendered exactly while scrolled. */
    function ShowsScrollToTop(): bool
      reads this
    {
      scrolled
    }

    constructor ()
      ensures Valid()
      ensures !isOpen && !scrolled && activeSection == "home" && scrollProgress == Some(0.0)
    {
      isOpen := false;
      scrolled := false;
      activeSection := "home";
      scrollProgress := Some(0.0);
    }

    /** The window scroll listener. */
    method HandleScroll(scrollY: real, scrollHeight: real, innerHeight: real, elements: map<string, Rect>)
      requires Valid()
      modifies this`scrolled, this`scrollProgress, this`activeSection
      ensures Valid()
      ensures scrolled == IsScrolled(scrollY)
      ensures ShowsScrollToTop() <==> scrollY > ScrolledThreshold
      ensures scrollProgress == ScrollProgress(scrollY, scrollHeight - innerHeight)
      ensures activeSection == NextActive(old(activeSection), elements)
      ensures isOpen == old(isOpen)
    {
      scrolled := scrollY > ScrolledThreshold;
      var totalHeight := scrollHeight - innerHeight;
      scrollProgress := if totalHeight == 0.0 then None else Some((scrollY / totalHeight) * 100.0);
      var current := FindSection(elements);
      if current.Some? {
        activeSection := current.value;
      }
    }

    /** `scrollToSection`: scroll to the target if it exists (not modelled) and always close the menu. */
    method ScrollToSection(href: string, targetExists: bool)
      requires Valid()
      modifies this`isOpen
      ensures Valid()
      ensures !isOpen
    {
      isOpen := false;
    }

    /** The mobile menu button. */
    method ToggleMenu()
      requires Valid()
      modifies this`isOpen
      ensures Valid()
      ensures isOpen == !old(isOpen)
    {
      isOpen := !isOpen;
    }

    /** A click on the menu's backdrop. */
    method BackdropClick()
      requires Valid()
      modifies this`isOpen
      ensures Valid()
      ensures !isOpen
    {
      isOpen := false;
    }
  }
}
