/**
 * The navbar's scroll handler (script.js:136-146): a more opaque background
 * once the page has scrolled past a threshold, the lighter one otherwise.
 */
module ScrollEffects {

  /** Scroll offsets, in pixels, above which the navbar is made more opaque. */
  const OpacityThreshold := 50
  /** The background classes at 98% opacity. */
  const Opaque: set<string> := {"bg-white/98", "dark:bg-slate-900/98"}
  /** The background classes at 95% opacity. */
  const Translucent: set<string> := {"bg-white/95", "dark:bg-slate-900/95"}

  /** The navbar's classes after the handler runs at scroll offset `scrollY`. */
  function NavbarStyle(classes: set<string>, scrollY: int): (r: set<string>)
    ensures scrollY > OpacityThreshold ==> Opaque <= r && r !! Translucent
    ensures scrollY <= OpacityThreshold ==> Translucent <= r && r !! Opaque
    ensures r - Opaque - Translucent == classes - Opaque - Translucent
  {
    if scrollY > OpacityThreshold then classes + Opaque - Translucent
    else classes + Translucent - Opaque
  }

  /** The result depends only on which side of the threshold the offset lies, so repeated events change nothing. */
  lemma NavbarStyleSettles(classes: set<string>, y1: int, y2: int)
    requires (y1 > OpacityThreshold) == (y2 > OpacityThreshold)
    ensures NavbarStyle(NavbarStyle(classes, y1), y2) == NavbarStyle(classes, y1)
  {
  }

  /** The `nav` element. */
  class Navbar {
    var classes: set<string>

    constructor (classes: set<string>)
      ensures this.classes == classes
    {
      this.classes := classes;
    }

    /** The scroll handler, given `window.scrollY`. */
    method OnScroll(scrollY: int)
      modifies this
      ensures classes == NavbarStyle(old(classes), scrollY)
    {
      if scrollY > OpacityThreshold {
        classes := classes + Opaque;
        classes := classes - Translucent;
      } else {
        classes := classes + Translucent;
        classes := classes - Opaque;
      }
    }
  }
}
