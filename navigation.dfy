/**
 * Navigation (script.js:43-131, 429-449): the mobile drawer opened and
 * closed by the hamburger button, closed by a link click or by a resize to
 * desktop width, and the scroll handler that highlights the link of the
 * section being read.
 */
module Navigation {
  import opened Wrappers

  /** The menu's class when the drawer is open. */
  const OpenClass := "translate-x-0"
  /** The menu's class when the drawer is closed. */
  const ClosedClass := "-translate-x-full"
  /** The hamburger's class when the drawer is open. */
  const ActiveClass := "active"
  /** The narrowest window, in pixels, the resize handler treats as desktop. */
  const DesktopWidth := 768

  /** The inline styles of the hamburger's three bars: the first's transform, the second's opacity, the third's transform. */
  datatype Bars = Bars(top: string, middle: string, bottom: string)

  /** The bars drawn as an "X". */
  const CrossBars := Bars("translateY(8px) rotate(45deg)", "0", "translateY(-8px) rotate(-45deg)")
  /** The bars drawn as three lines. */
  const FlatBars := Bars("translateY(0) rotate(0)", "1", "translateY(0) rotate(0)")

  /** What the page shows of the drawer: the menu's classes, the hamburger's classes, the bars. */
  datatype Drawer = Drawer(menu: set<string>, burger: set<string>, bars: Bars)

  /** The handler's own test for openness. */
  predicate IsOpen(d: Drawer)
  {
    OpenClass in d.menu
  }

  /** Every mark of an open drawer is present. */
  predicate ShowsOpen(d: Drawer)
  {
    OpenClass in d.menu && ClosedClass !in d.menu && ActiveClass in d.burger && d.bars == CrossBars
  }

  /** Every mark of a closed drawer is present. */
  predicate ShowsClosed(d: Drawer)
  {
    OpenClass !in d.menu && ClosedClass in d.menu && ActiveClass !in d.burger && d.bars == FlatBars
  }

  /** The classes the drawer handlers leave alone are the same in `d` and `e`. */
  predicate SameOtherClasses(d: Drawer, e: Drawer)
  {
    d.menu - {OpenClass, ClosedClass} == e.menu - {OpenClass, ClosedClass} &&
    d.burger - {ActiveClass} == e.burger - {ActiveClass}
  }

  /** The hamburger click: the drawer flips, and the bars follow the new state. */
  function HamburgerClick(d: Drawer): (r: Drawer)
    ensures IsOpen(r) == !IsOpen(d)
    ensures if IsOpen(r) then ShowsOpen(r) else ShowsClosed(r)
    ensures SameOtherClasses(r, d)
  {
    if IsOpen(d) then Drawer(d.menu - {OpenClass} + {ClosedClass}, d.burger - {ActiveClass}, FlatBars)
    else Drawer(d.menu - {ClosedClass} + {OpenClass}, d.burger + {ActiveClass}, CrossBars)
  }

  /** A nav-link click, or a resize to desktop width: the drawer ends closed whatever its state. */
  function ForceClose(d: Drawer): (r: Drawer)
    ensures ShowsClosed(r)
    ensures SameOtherClasses(r, d)
  {
    Drawer(d.menu - {OpenClass} + {ClosedClass}, d.burger - {ActiveClass}, FlatBars)
  }

  /** Closing is idempotent, and a drawer that shows closed is left as it is. */
  lemma ForceCloseIdempotent(d: Drawer)
    ensures ForceClose(ForceClose(d)) == ForceClose(d)
    ensures ShowsClosed(d) ==> ForceClose(d) == d
  {
  }

  /** Two hamburger clicks give back a drawer whose marks agreed with each other. */
  lemma HamburgerTwice(d: Drawer)
    requires ShowsOpen(d) || ShowsClosed(d)
    ensures HamburgerClick(HamburgerClick(d)) == d
  {
  }

  /** The drawer's elements: the `.nav-menu`, the `.hamburger` and its three bars. */
  class MobileMenu {
    var menuClasses: set<string>
    var burgerClasses: set<string>
    var bars: Bars

    function View(): Drawer
      reads this
    {
      Drawer(menuClasses, burgerClasses, bars)
    }

    constructor (menuClasses: set<string>, burgerClasses: set<string>, bars: Bars)
      ensures View() == Drawer(menuClasses, burgerClasses, bars)
    {
      this.menuClasses := menuClasses;
      this.burgerClasses := burgerClasses;
      this.bars := bars;
    }

    /** The hamburger's click handler. */
    method ClickHamburger()
      modifies this
      ensures View() == HamburgerClick(old(View()))
    {
      var isOpen := OpenClass in menuClasses;
      if isOpen {
        menuClasses := menuClasses - {OpenClass};
        menuClasses := menuClasses + {ClosedClass};
        burgerClasses := burgerClasses - {ActiveClass};
      } else {
        menuClasses := menuClasses - {ClosedClass};
        menuClasses := menuClasses + {OpenClass};
        burgerClasses := burgerClasses + {ActiveClass};
      }
      if !isOpen {
        bars := CrossBars;
      } else {
        bars := FlatBars;
      }
    }

    /** The click handler of every link in the menu. */
    method ClickNavLink()
      modifies this
      ensures View() == ForceClose(old(View()))
    {
      menuClasses := menuClasses - {OpenClass};
      menuClasses := menuClasses + {ClosedClass};
      burgerClasses := burgerClasses - {ActiveClass};
      bars := FlatBars;
    }

    /** The (debounced) resize handler, given the window's inner width. */
    method Resize(innerWidth: int)
      modifies this
      ensures innerWidth >= DesktopWidth ==> View() == ForceClose(old(View()))
      ensures innerWidth < DesktopWidth ==> View() == old(View())
    {
      if innerWidth >= DesktopWidth {
        menuClasses := menuClasses - {OpenClass};
        menuClasses := menuClasses + {ClosedClass};
        burgerClasses := burgerClasses - {ActiveClass};
        bars := FlatBars;
      }
    }
  }

  /** Clicking a link while the drawer is open, and again, leaves it closed. */
  method LinkClickClosesOpenDrawer(menu: MobileMenu)
    requires ShowsOpen(menu.View())
    modifies menu
    ensures ShowsClosed(menu.View())
    ensures SameOtherClasses(menu.View(), old(menu.View()))
  {
    menu.ClickNavLink();
    menu.ClickNavLink();
    ForceCloseIdempotent(old(menu.View()));
  }

  // ---- Active-link highlighting ----

  /** A `<section>`: its `id` attribute (`null` when absent) and its `offsetTop`. */
  datatype Section = Section(id: Option<string>, top: int)

  /** The lookahead, in pixels, before a section counts as reached. */
  const Lookahead := 100

  /** The section's top, less the lookahead, is at or above the scroll position. */
  predicate Reached(s: Section, scroll: int)
    ensures s.top <= scroll ==> Reached(s, scroll)
  {
    scroll >= s.top - Lookahead
  }

  /** Scrolling further down never un-reaches a section. */
  lemma ReachedStaysReached(s: Section, scroll: int, later: int)
    requires Reached(s, scroll) && scroll <= later
    ensures Reached(s, later)
  {
  }

  /** The index of the last reached section, in document order. */
  function LastReached(sections: seq<Section>, scroll: int): (r: Option<nat>)
    ensures r.Some? ==> r.value < |sections| && Reached(sections[r.value], scroll)
    ensures r.Some? ==> forall j | r.value < j < |sections| :: !Reached(sections[j], scroll)
    ensures r.None? ==> forall j | 0 <= j < |sections| :: !Reached(sections[j], scroll)
  {
    if sections == [] then None
    else if Reached(sections[|sections| - 1], scroll) then Some(|sections| - 1)
    else LastReached(sections[..|sections| - 1], scroll)
  }

  /**
   * The `current` the scroll handler computes: `""` when no section is
   * reached, else the last reached section's id, `null` if it has none.
   */
  function Current(sections: seq<Section>, scroll: int): (r: Option<string>)
    ensures (forall j | 0 <= j < |sections| :: !Reached(sections[j], scroll)) ==> r == Some("")
    ensures forall i | 0 <= i < |sections| && Reached(sections[i], scroll) &&
      (forall j | i < j < |sections| :: !Reached(sections[j], scroll)) :: r == sections[i].id
  {
    match LastReached(sections, scroll)
    case None => Some("")
    case Some(i) => sections[i].id
  }

  /** The href the active link must have: `#${current}`, which renders `null` as the text "null". */
  function TargetHref(current: Option<string>): (r: string)
    ensures |r| >= 1 && r[0] == '#'
    ensures current.Some? ==> r[1..] == current.value
    ensures current.None? ==> r[1..] == "null"
  {
    "#" + match current
      case Some(id) => id
      case None => "null"
  }

  /** The first loop of `updateActiveNavLink`: the last reached section's id. */
  method FindCurrent(sections: seq<Section>, scroll: int) returns (current: Option<string>)
    ensures current == Current(sections, scroll)
  {
    current := Some("");
    var i := 0;
    while i < |sections|
      invariant 0 <= i <= |sections|
      invariant current == Current(sections[..i], scroll)
    {
      var sectionTop := sections[i].top - Lookahead;
      if scroll >= sectionTop {
        current := sections[i].id;
      }
      assert sections[..i + 1][..i] == sections[..i];
      i := i + 1;
    }
    assert sections[..i] == sections;
  }

  /** The section being read when the scroll position reaches into it, as the page lays sections out. */
  lemma CurrentInExampleLayout()
    ensures Current([Section(Some("home"), 0), Section(Some("about"), 800), Section(Some("projects"), 1600)], 850)
      == Some("about")
    ensures Current([Section(Some("home"), 200), Section(Some("about"), 800)], 50) == Some("")
  {
    var s := [Section(Some("home"), 0), Section(Some("about"), 800), Section(Some("projects"), 1600)];
    assert s[..2] == [Section(Some("home"), 0), Section(Some("about"), 800)];
  }

  /** Above every section the target is the bare "#", so a link whose href is "#" is the one highlighted. */
  lemma NothingReachedTargetsBareHash(sections: seq<Section>, scroll: int)
    requires forall j | 0 <= j < |sections| :: !Reached(sections[j], scroll)
    ensures TargetHref(Current(sections, scroll)) == "#"
  {
  }

  /** The highlight classes of a nav link. */
  const HighlightClasses: set<string> := {"text-blue-500", "dark:text-blue-400"}
  /** The plain classes of a nav link. */
  const PlainClasses: set<string> := {"text-slate-700", "dark:text-slate-200"}

  /** A `.nav-link`: its href and its class list. */
  datatype NavLink = NavLink(href: string, classes: set<string>)

  /** The link is styled as the active one. */
  predicate Highlighted(classes: set<string>)
  {
    HighlightClasses <= classes && classes !! PlainClasses
  }

  /** The classes a link ends with: highlighted when it is the active one, plain otherwise. */
  function Restyle(classes: set<string>, active: bool): (r: set<string>)
    ensures Highlighted(r) <==> active
    ensures active ==> HighlightClasses <= r && r !! PlainClasses
    ensures !active ==> PlainClasses <= r && r !! HighlightClasses
    ensures r - HighlightClasses - PlainClasses == classes - HighlightClasses - PlainClasses
  {
    if active then classes - PlainClasses + HighlightClasses
    else classes - HighlightClasses + PlainClasses
  }

  /**
   * `updateActiveNavLink`: find `current`, then restyle every link so that
   * exactly the links whose href is `#${current}` are highlighted.
   */
  method UpdateActiveNavLink(sections: seq<Section>, scroll: int, links: array<NavLink>)
    returns (current: Option<string>)
    modifies links
    ensures current == Current(sections, scroll)
    ensures forall k | 0 <= k < links.Length ::
      links[k] == NavLink(old(links[k]).href, Restyle(old(links[k]).classes, old(links[k]).href == TargetHref(current)))
    ensures forall k | 0 <= k < links.Length :: Highlighted(links[k].classes) <==> links[k].href == TargetHref(current)
  {
    current := FindCurrent(sections, scroll);
    var target := TargetHref(current);
    for k := 0 to links.Length
      invariant forall m | 0 <= m < k ::
        links[m] == NavLink(old(links[m]).href, Restyle(old(links[m]).classes, old(links[m]).href == target))
      invariant forall m | k <= m < links.Length :: links[m] == old(links[m])
    {
      var classes := links[k].classes;
      classes := classes - HighlightClasses;
      classes := classes + PlainClasses;
      if links[k].href == target {
        classes := classes - PlainClasses;
        classes := classes + HighlightClasses;
      }
      links[k] := NavLink(links[k].href, classes);
    }
  }
}
