/** The site header: its "scrolled" look, the navigation entry highlighted
    for the section in view, the anchor links' scroll targets, and the mobile
    menu, which locks page scrolling while it is open. Scroll offsets and
    element boxes are whole pixels. */
module Header {
  import opened Common
  import Dom

  /** The header turns "scrolled" once the page is scrolled past this. */
  const ScrollThreshold := 10

  /** The probe point sits this far below the top of the viewport. */
  const ProbeOffset := 100

  /** The sections, in the order they are searched. */
  const Sections: seq<string> := ["home", "about", "skills", "projects", "experience", "contact"]

  const InitialSection := "home"

  /** Header heights the anchor links leave clear above their target. */
  const ScrolledHeaderOffset := 60
  const TopHeaderOffset := 90
  const MobileHeaderOffset := 80

  predicate IsScrolled(scrollY: int) {
    scrollY > ScrollThreshold
  }

  /** An element's `offsetTop` and `offsetHeight`. */
  datatype Box = Box(offsetTop: int, offsetHeight: int)

  /** The elements on the page by id; an id without an element is absent. */
  type Layout = map<string, Box>

  /** The section `id` has an element and its box `[top, top + height)`
      contains `y`. */
  predicate Hit(layout: Layout, id: string, y: int) {
    id in layout && layout[id].offsetTop <= y < layout[id].offsetTop + layout[id].offsetHeight
  }

  /** The first id of `ids` that is hit, if any. */
  function FirstHit(ids: seq<string>, layout: Layout, y: int): (r: Option<string>)
    ensures r.None? <==> forall i :: 0 <= i < |ids| ==> !Hit(layout, ids[i], y)
    ensures r.Some? ==> exists k :: 0 <= k < |ids| && ids[k] == r.value && Hit(layout, ids[k], y)
                                     && forall j :: 0 <= j < k ==> !Hit(layout, ids[j], y)
  {
    if ids == [] then None
    else if Hit(layout, ids[0], y) then Some(ids[0])
    else
      var r := FirstHit(ids[1..], layout, y);
      assert forall i :: 1 <= i < |ids| ==> ids[i] == ids[1..][i - 1];
      if r.Some? then
        var k :| 0 <= k < |ids[1..]| && ids[1..][k] == r.value && Hit(layout, ids[1..][k], y)
                 && forall j :: 0 <= j < k ==> !Hit(layout, ids[1..][j], y);
        assert ids[k + 1] == r.value;
        r
      else r
  }

  /** A hit with no earlier hit is the first hit. */
  lemma FirstHitAt(ids: seq<string>, layout: Layout, y: int, i: int)
    requires 0 <= i < |ids| && Hit(layout, ids[i], y)
    requires forall j :: 0 <= j < i ==> !Hit(layout, ids[j], y)
    ensures FirstHit(ids, layout, y) == Some(ids[i])
  {
    var r := FirstHit(ids, layout, y);
    var k :| 0 <= k < |ids| && ids[k] == r.value && Hit(layout, ids[k], y)
             && forall j :: 0 <= j < k ==> !Hit(layout, ids[j], y);
    assert k == i;
  }

  /** The active section after a scroll to `scrollY`: the first section, in
      the fixed order, whose box contains the probe point; the previous one
      when no box does. */
  function ActiveAfterScroll(layout: Layout, scrollY: int, previous: string): string {
    match FirstHit(Sections, layout, scrollY + ProbeOffset)
    case Some(id) => id
    case None => previous
  }

  /** The scroll handler's loop over the sections, stopping at the first hit. */
  method ScanSections(layout: Layout, scrollY: int, previous: string) returns (active: string)
    ensures active == ActiveAfterScroll(layout, scrollY, previous)
  {
    var scrollPosition := scrollY + ProbeOffset;
    active := previous;
    var i := 0;
    while i < |Sections|
      invariant 0 <= i <= |Sections|
      invariant active == previous
      invariant forall j :: 0 <= j < i ==> !Hit(layout, Sections[j], scrollPosition)
    {
      var sectionId := Sections[i];
      if sectionId in layout {
        var box := layout[sectionId];
        if scrollPosition >= box.offsetTop && scrollPosition < box.offsetTop + box.offsetHeight {
          active := sectionId;
          FirstHitAt(Sections, layout, scrollPosition, i);
          return;
        }
      }
      i := i + 1;
    }
  }

  /** The active section is one of the sections or the previous value, and
      it is a section whose box contains the probe point unless none does;
      scanning again with the same offset and layout changes nothing. */
  lemma ActiveSectionRule(layout: Layout, scrollY: int, previous: string)
    ensures var a := ActiveAfterScroll(layout, scrollY, previous);
      (a in Sections && Hit(layout, a, scrollY + ProbeOffset))
      || (a == previous && forall i :: 0 <= i < |Sections| ==> !Hit(layout, Sections[i], scrollY + ProbeOffset))
    ensures var a := ActiveAfterScroll(layout, scrollY, previous);
      ActiveAfterScroll(layout, scrollY, a) == a
  {
  }

  /** Overlapping boxes: the earlier section in the fixed order wins, and ids
      without an element are skipped. */
  lemma FirstMatchWins()
    ensures ActiveAfterScroll(map["home" := Box(0, 800), "about" := Box(500, 800)], 450, "contact") == "home"
    ensures ActiveAfterScroll(map["about" := Box(500, 800)], 450, "contact") == "about"
    ensures ActiveAfterScroll(map["about" := Box(500, 800)], 2000, "contact") == "contact"
  {
    var both := map["home" := Box(0, 800), "about" := Box(500, 800)];
    FirstHitAt(Sections, both, 550, 0);
    var one := map["about" := Box(500, 800)];
    assert !Hit(one, Sections[0], 550);
    FirstHitAt(Sections, one, 550, 1);
    assert forall i :: 0 <= i < |Sections| ==> !Hit(one, Sections[i], 2100);
  }

  /** The scroll target of a desktop anchor: the element's document position
      less the header's height, which depends on the header's look; no
      scroll when the element is missing. */
  function DesktopTarget(elementTop: Option<int>, pageYOffset: int, scrolled: bool): Option<int> {
    match elementTop
    case None => None
    case Some(top) => Some(top + pageYOffset - (if scrolled then ScrolledHeaderOffset else TopHeaderOffset))
  }

  /** The scroll target of a mobile anchor: a fixed header offset. */
  function MobileTarget(elementTop: Option<int>, pageYOffset: int): Option<int> {
    match elementTop
    case None => None
    case Some(top) => Some(top + pageYOffset - MobileHeaderOffset)
  }

  /** After scrolling to a desktop anchor's target, the element's top sits
      exactly one header height below the top of the viewport: 60 pixels
      under the scrolled header, 90 under the tall one. */
  lemma DesktopAnchorClearsHeader(elementTop: int, pageYOffset: int, scrolled: bool)
    ensures var t := DesktopTarget(Some(elementTop), pageYOffset, scrolled);
      t.Some? && (elementTop + pageYOffset) - t.value == if scrolled then 60 else 90
    ensures DesktopTarget(None, pageYOffset, scrolled).None?
  {
  }

  /** On mobile the element lands 80 pixels below the top of the viewport. */
  lemma MobileAnchorClearsHeader(elementTop: int, pageYOffset: int)
    ensures var t := MobileTarget(Some(elementTop), pageYOffset);
      t.Some? && (elementTop + pageYOffset) - t.value == 80
    ensures MobileTarget(None, pageYOffset).None?
  {
  }

  /** The header's state, over the page whose body scrolling the open menu
      locks. */
  class HeaderState {
    var isOpen: bool
    var isScrolled: bool
    var activeSection: string
    const page: Dom.Page

    /** Mounting runs both scroll handlers once. */
    constructor (page: Dom.Page, scrollY: int, layout: Layout)
      ensures this.page == page && !isOpen
      ensures isScrolled == IsScrolled(scrollY)
      ensures activeSection == ActiveAfterScroll(layout, scrollY, InitialSection)
    {
      this.page := page;
      isOpen := false;
      isScrolled := scrollY > ScrollThreshold;
      var active := ScanSections(layout, scrollY, InitialSection);
      activeSection := active;
    }

    /** A scroll event reaches both scroll handlers. */
    method Scroll(scrollY: int, layout: Layout)
      modifies this
      ensures isScrolled == IsScrolled(scrollY)
      ensures activeSection == ActiveAfterScroll(layout, scrollY, old(activeSection))
      ensures isOpen == old(isOpen)
    {
      isScrolled := scrollY > ScrollThreshold;
      activeSection := ScanSections(layout, scrollY, activeSection);
    }

    /** `setIsOpen` followed by the effect on `isOpen`: when the flag changes,
        the previous effect's cleanup unlocks scrolling and the new effect
        locks it again if the menu is now open; an unchanged flag runs no
        effect. */
    method SetOpen(open: bool)
      modifies this, page
      ensures isOpen == open
      ensures page.bodyOverflow ==
        if open == old(isOpen) then old(page.bodyOverflow) else if open then "hidden" else "unset"
      ensures isScrolled == old(isScrolled) && activeSection == old(activeSection)
      ensures page.htmlClasses == old(page.htmlClasses) && page.bodyClasses == old(page.bodyClasses)
      ensures page.localStorage == old(page.localStorage)
    {
      if open != isOpen {
        page.bodyOverflow := "unset";
        if open {
          page.bodyOverflow := "hidden";
        }
      }
      isOpen := open;
    }

    /** The menu button flips the menu; scrolling is locked exactly while it
        is open. */
    method ToggleMenu()
      modifies this, page
      ensures isOpen == !old(isOpen)
      ensures page.bodyOverflow == if isOpen then "hidden" else "unset"
      ensures isScrolled == old(isScrolled) && activeSection == old(activeSection)
      ensures page.htmlClasses == old(page.htmlClasses) && page.bodyClasses == old(page.bodyClasses)
      ensures page.localStorage == old(page.localStorage)
    {
      SetOpen(!isOpen);
    }

    /** The backdrop and the close button. */
    method CloseMenu()
      modifies this, page
      ensures !isOpen
      ensures old(isOpen) ==> page.bodyOverflow == "unset"
      ensures !old(isOpen) ==> page.bodyOverflow == old(page.bodyOverflow)
      ensures isScrolled == old(isScrolled) && activeSection == old(activeSection)
      ensures page.htmlClasses == old(page.htmlClasses) && page.bodyClasses == old(page.bodyClasses)
      ensures page.localStorage == old(page.localStorage)
    {
      SetOpen(false);
    }

    /** A key press: the Escape listener exists only while the menu is open,
        and only Escape closes it. */
    method KeyDown(key: string)
      modifies this, page
      ensures isOpen == (old(isOpen) && key != "Escape")
      ensures old(isOpen) && key == "Escape" ==> page.bodyOverflow == "unset"
      ensures !(old(isOpen) && key == "Escape") ==> page.bodyOverflow == old(page.bodyOverflow)
      ensures isScrolled == old(isScrolled) && activeSection == old(activeSection)
      ensures page.htmlClasses == old(page.htmlClasses) && page.bodyClasses == old(page.bodyClasses)
      ensures page.localStorage == old(page.localStorage)
    {
      if isOpen && key == "Escape" {
        SetOpen(false);
      }
    }

    /** A desktop anchor click: the scroll target, if the element exists. */
    method DesktopNavClick(elementTop: Option<int>, pageYOffset: int) returns (target: Option<int>)
      ensures target.Some? <==> elementTop.Some?
      ensures target.Some? ==>
        elementTop.value + pageYOffset - target.value == if isScrolled then ScrolledHeaderOffset else TopHeaderOffset
    {
      target := DesktopTarget(elementTop, pageYOffset, isScrolled);
    }

    /** A mobile anchor click closes the menu, then scrolls if the element
        exists. */
    method MobileNavClick(elementTop: Option<int>, pageYOffset: int) returns (target: Option<int>)
      modifies this, page
      ensures !isOpen
      ensures old(isOpen) ==> page.bodyOverflow == "unset"
      ensures !old(isOpen) ==> page.bodyOverflow == old(page.bodyOverflow)
      ensures isScrolled == old(isScrolled) && activeSection == old(activeSection)
      ensures page.htmlClasses == old(page.htmlClasses) && page.bodyClasses == old(page.bodyClasses)
      ensures page.localStorage == old(page.localStorage)
      ensures target.Some? <==> elementTop.Some?
      ensures target.Some? ==> elementTop.value + pageYOffset - target.value == MobileHeaderOffset
    {
      SetOpen(false);
      target := MobileTarget(elementTop, pageYOffset);
    }
  }
}
