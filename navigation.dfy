/** The navigation bar of the portfolio page: which section is highlighted as
    the page scrolls, whether the bar is drawn as "scrolled", the mobile menu
    and the colour theme. */
module Navigation {
  import opened Wrappers

  /** One entry of the bar: the id of the section it leads to and the caption shown (`label` in the page). */
  datatype NavItem = NavItem(id: string, caption: string)

  /** The fixed entries of the bar, in page order. */
  const NavItems: seq<NavItem> := [
    NavItem("home", "Home"),
    NavItem("about", "About"),
    NavItem("experience", "Experience"),
    NavItem("projects", "Projects"),
    NavItem("skills", "Skills"),
    NavItem("contact", "Contact")
  ]

  /** The section ids of the entries, in the same order. */
  const NavIds: seq<string> := seq(|NavItems|, i requires 0 <= i < |NavItems| => NavItems[i].id)

  /** Scroll offset (pixels) beyond which the bar counts as scrolled. */
  const ScrolledThreshold: int := 50

  /** Added to the scroll offset so that a section becomes active slightly
      before its top reaches the top of the viewport. */
  const Lookahead: int := 100

  /** The page as the handlers see it: each element id present in the
      document mapped to that element's offsetTop. An id that is not a key
      has no element. */
  type Document = map<string, int>

  /** The top of the element with the given id, if the document has one. */
  function ElementTop(doc: Document, id: string): Option<int>
  {
    if id in doc then Some(doc[id]) else None
  }

  /** One element lookup per entry of the bar, in bar order: entry i is
      present exactly when the document has an element with that entry's id,
      and then holds that element's top. */
  function Sections(doc: Document): (sections: seq<Option<int>>)
    ensures |sections| == |NavItems|
    ensures forall i :: 0 <= i < |sections| ==> (sections[i].Some? <==> NavItems[i].id in doc)
    ensures forall i :: 0 <= i < |sections| && sections[i].Some? ==> sections[i].value == doc[NavItems[i].id]
  {
    seq(|NavItems|, i requires 0 <= i < |NavItems| => ElementTop(doc, NavItems[i].id))
  }

  /** A section may become active when its element exists and its top is at
      or above the scroll position. */
  predicate Qualifies(top: Option<int>, position: int)
  {
    top.Some? && top.value <= position
  }

  /** The first qualifying index met when the indices k - 1, k - 2, ..., 0 are
      tried in that order. */
  function ScanDown(sections: seq<Option<int>>, position: int, k: nat): (r: Option<nat>)
    requires k <= |sections|
    ensures r.Some? ==> r.value < k && Qualifies(sections[r.value], position)
  {
    if k == 0 then None
    else if Qualifies(sections[k - 1], position) then Some(k - 1)
    else ScanDown(sections, position, k - 1)
  }

  /** The index the scroll handler selects: the reverse scan over all sections. */
  function ActiveIndex(sections: seq<Option<int>>, position: int): (r: Option<nat>)
    ensures r.Some? ==> r.value < |sections| && Qualifies(sections[r.value], position)
  {
    ScanDown(sections, position, |sections|)
  }

  /** The active section after a scroll event: the id of the selected entry,
      or the previous value when no section qualifies. */
  function ActiveAfter(prev: string, sections: seq<Option<int>>, position: int): (active: string)
    requires |sections| <= |NavItems|
    ensures (forall j :: 0 <= j < |sections| ==> !Qualifies(sections[j], position)) ==> active == prev
    ensures forall i: nat :: IsGreatestQualifying(sections, position, i) ==> active == NavItems[i].id
  {
    ActiveIndexNoneIffNoneQualifies(sections, position);
    match ActiveIndex(sections, position)
    case Some(i) =>
      ActiveIndexIsGreatestQualifying(sections, position, i);
      NavItems[i].id
    case None => prev
  }

  /** Index i is the greatest index of a qualifying section. */
  ghost predicate IsGreatestQualifying(sections: seq<Option<int>>, position: int, i: nat)
  {
    && i < |sections|
    && Qualifies(sections[i], position)
    && forall j :: i < j < |sections| ==> !Qualifies(sections[j], position)
  }

  /** The sections are all present and their tops never decrease in bar order. */
  ghost predicate PresentAndAscending(sections: seq<Option<int>>)
  {
    && (forall i :: 0 <= i < |sections| ==> sections[i].Some?)
    && forall i, j :: 0 <= i <= j < |sections| && sections[i].Some? && sections[j].Some? ==>
         sections[i].value <= sections[j].value
  }

  lemma {:induction false} ScanDownFindsGreatestBelow(sections: seq<Option<int>>, position: int, k: nat, i: nat)
    requires k <= |sections|
    ensures ScanDown(sections, position, k) == Some(i) <==>
              && i < k
              && Qualifies(sections[i], position)
              && forall j :: i < j < k ==> !Qualifies(sections[j], position)
  {
    if k > 0 && !Qualifies(sections[k - 1], position) {
      ScanDownFindsGreatestBelow(sections, position, k - 1, i);
    }
  }

  lemma {:induction false} ScanDownNoneBelow(sections: seq<Option<int>>, position: int, k: nat)
    requires k <= |sections|
    ensures ScanDown(sections, position, k).None? <==>
              forall j :: 0 <= j < k ==> !Qualifies(sections[j], position)
  {
    if k > 0 && !Qualifies(sections[k - 1], position) {
      ScanDownNoneBelow(sections, position, k - 1);
    }
  }

  /** The reverse scan selects i exactly when i is the greatest qualifying index. */
  lemma ActiveIndexIsGreatestQualifying(sections: seq<Option<int>>, position: int, i: nat)
    ensures ActiveIndex(sections, position) == Some(i) <==> IsGreatestQualifying(sections, position, i)
  {
    ScanDownFindsGreatestBelow(sections, position, |sections|, i);
  }

  /** The reverse scan selects nothing exactly when no section qualifies. */
  lemma ActiveIndexNoneIffNoneQualifies(sections: seq<Option<int>>, position: int)
    ensures ActiveIndex(sections, position).None? <==>
              forall j :: 0 <= j < |sections| ==> !Qualifies(sections[j], position)
  {
    ScanDownNoneBelow(sections, position, |sections|);
  }

  /** A section without an element is never selected. */
  lemma AbsentSectionNeverActive(sections: seq<Option<int>>, position: int, i: nat)
    requires i < |sections| && sections[i].None?
    ensures ActiveIndex(sections, position) != Some(i)
  {
    ActiveIndexIsGreatestQualifying(sections, position, i);
  }

  /** Of two qualifying sections, the later one in bar order is preferred,
      also when their tops are equal. */
  lemma LaterQualifyingSectionWins(sections: seq<Option<int>>, position: int, i: nat, j: nat)
    requires i < j < |sections|
    requires Qualifies(sections[i], position) && Qualifies(sections[j], position)
    ensures ActiveIndex(sections, position).Some?
    ensures j <= ActiveIndex(sections, position).value
  {
    ActiveIndexNoneIffNoneQualifies(sections, position);
    var k := ActiveIndex(sections, position).value;
    ActiveIndexIsGreatestQualifying(sections, position, k);
  }

  /** With ascending tops, the section whose top is passed while the next
      one's is not is the one selected. */
  lemma AscendingTopsSelectBracket(sections: seq<Option<int>>, position: int, k: nat)
    requires PresentAndAscending(sections)
    requires k < |sections| && sections[k].value <= position
    requires k + 1 == |sections| || position < sections[k + 1].value
    ensures ActiveIndex(sections, position) == Some(k)
  {
    forall j | k < j < |sections|
      ensures !Qualifies(sections[j], position)
    {
      assert sections[k + 1].value <= sections[j].value;
    }
    ActiveIndexIsGreatestQualifying(sections, position, k);
  }

  /** The handler compares integral element tops with a fractional scroll
      offset plus the lookahead; for an integral top that is the same as
      comparing with the whole-pixel part of the offset plus the lookahead. */
  lemma WholePixelPosition(top: int, scrollY: real)
    ensures top as real <= scrollY + Lookahead as real <==> top <= scrollY.Floor + Lookahead
  {
  }

  /** The active section is always one of the bar's ids. */
  lemma ActiveAfterIsNavId(prev: string, sections: seq<Option<int>>, position: int)
    requires |sections| <= |NavItems|
    requires prev in NavIds
    ensures ActiveAfter(prev, sections, position) in NavIds
  {
    match ActiveIndex(sections, position)
    case Some(i) =>
      assert NavIds[i] == NavItems[i].id;
    case None =>
  }

  /** The theme chosen by the theme button: "light" after "dark", and "dark"
      after anything else. */
  function ToggledTheme(theme: string): (next: string)
    ensures next == "dark" || next == "light"
    ensures next == "light" <==> theme == "dark"
  {
    if theme == "dark" then "light" else "dark"
  }

  /** Pressing the theme button twice restores a dark or light theme. */
  lemma ToggledThemeTwice(theme: string)
    requires theme == "dark" || theme == "light"
    ensures ToggledTheme(ToggledTheme(theme)) == theme
  {
  }

  class Navbar {
    var isScrolled: bool
    var isMobileMenuOpen: bool
    var activeSection: string
    /** The theme held by the page's theme provider, as the bar reads and sets it. */
    var theme: string

    ghost predicate Valid()
      reads this
    {
      activeSection in NavIds
    }

    constructor (theme: string)
      ensures Valid()
      ensures !isScrolled && !isMobileMenuOpen && activeSection == "home"
      ensures this.theme == theme
    {
      isScrolled := false;
      isMobileMenuOpen := false;
      activeSection := "home";
      this.theme := theme;
      assert NavIds[0] == "home";
    }

    /** The scroll handler: records whether the page is scrolled and selects
        the bottommost section whose top has been passed. */
    method HandleScroll(scrollY: real, doc: Document)
      requires Valid()
      modifies this
      ensures Valid()
      ensures isScrolled == (scrollY > ScrolledThreshold as real)
      ensures activeSection == ActiveAfter(old(activeSection), Sections(doc), scrollY.Floor + Lookahead)
      ensures isMobileMenuOpen == old(isMobileMenuOpen) && theme == old(theme)
    {
      isScrolled := scrollY > ScrolledThreshold as real;
      var sections := Sections(doc);
      // offsetTop is a whole number of pixels, so the whole-pixel part of the
      // offset selects the same sections (WholePixelPosition)
      var scrollPosition := scrollY.Floor + Lookahead;
      var i := |sections| - 1;
      while i >= 0
        invariant -1 <= i < |sections|
        invariant ActiveIndex(sections, scrollPosition) == ScanDown(sections, scrollPosition, i + 1)
        invariant activeSection == old(activeSection)
      {
        if sections[i].Some? && sections[i].value <= scrollPosition {
          activeSection := NavItems[i].id;
          break;
        }
        i := i - 1;
      }
      ActiveAfterIsNavId(old(activeSection), sections, scrollPosition);
    }

    /** Scrolls to the section with the given id. The returned value is the
        top the viewport is asked to bring into view; nothing happens when the
        document has no such element. */
    method ScrollToSection(id: string, doc: Document) returns (target: Option<int>)
      requires Valid()
      modifies this
      ensures Valid()
      ensures target == ElementTop(doc, id)
      ensures isMobileMenuOpen == (if id in doc then false else old(isMobileMenuOpen))
      ensures isScrolled == old(isScrolled) && activeSection == old(activeSection) && theme == old(theme)
    {
      target := ElementTop(doc, id);
      if target.Some? {
        isMobileMenuOpen := false;
      }
    }

    method ToggleTheme()
      requires Valid()
      modifies this
      ensures Valid()
      ensures theme == ToggledTheme(old(theme))
      ensures isScrolled == old(isScrolled) && isMobileMenuOpen == old(isMobileMenuOpen)
      ensures activeSection == old(activeSection)
    {
      theme := ToggledTheme(theme);
    }

    /** The mobile menu button. */
    method ToggleMobileMenu()
      requires Valid()
      modifies this
      ensures Valid()
      ensures isMobileMenuOpen == !old(isMobileMenuOpen)
      ensures isScrolled == old(isScrolled) && activeSection == old(activeSection) && theme == old(theme)
    {
      isMobileMenuOpen := !isMobileMenuOpen;
    }
  }
}
