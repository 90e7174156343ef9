/**
 * The notification surface: `showNotification` and `hideNotification`
 * (script.js:289-348). The banners live in the document body; the model
 * keeps the `.notification` elements attached to it, in document order.
 * The three deferred steps the script schedules with timers (slide in after
 * 100 ms, hide after 5 s or on the close button, detach 300 ms after hiding)
 * are methods the caller invokes.
 */
module Notifications {

  /** A `showNotification(message, kind)` call, as a value a pure decision can emit. */
  datatype Notice = Notice(message: string, kind: string)

  const SuccessColour := "bg-green-500"
  const ErrorColour := "bg-red-500"
  const InfoColour := "bg-blue-500"

  /** Off screen to the right (the initial and the hidden position). */
  const OffScreen := "translate-x-full"
  /** In view. */
  const OnScreen := "translate-x-0"

  /** The classes every banner is created with, before its colour is added. */
  const BaseClasses: set<string> :=
    {"notification", "fixed", "top-24", "right-4", "z-50", "max-w-sm", "p-4", "rounded-xl",
     "text-white", "font-medium", "shadow-xl", "transform", OffScreen,
     "transition-transform", "duration-300"}

  /** The background colour picked by kind: green for success, red for error, blue for anything else. */
  function Colour(kind: string): (c: string)
    ensures c in {SuccessColour, ErrorColour, InfoColour}
    ensures c == SuccessColour <==> kind == "success"
    ensures c == ErrorColour <==> kind == "error"
  {
    if kind == "success" then SuccessColour
    else if kind == "error" then ErrorColour
    else InfoColour
  }

  /** The class list of a freshly created banner of the given kind. */
  function InitialClasses(kind: string): (r: set<string>)
    ensures "notification" in r && OffScreen in r && OnScreen !in r
    ensures Colour(kind) in r
    ensures forall c | c in {SuccessColour, ErrorColour, InfoColour} && c in r :: c == Colour(kind)
  {
    BaseClasses + {Colour(kind)}
  }

  /** `s` with every occurrence of `x` removed. */
  function Without<T(==)>(s: seq<T>, x: T): (r: seq<T>)
    ensures forall k | 0 <= k < |r| :: r[k] in s && r[k] != x
    ensures forall k | 0 <= k < |s| && s[k] != x :: s[k] in r
    ensures x !in s ==> r == s
    ensures |r| <= |s|
  {
    if s == [] then []
    else if s[0] == x then Without(s[1..], x)
    else [s[0]] + Without(s[1..], x)
  }

  /** A banner element: its text and its class list. */
  class Banner {
    const message: string
    var classes: set<string>

    /** `document.createElement("div")` with its class name, colour and message. */
    constructor (message: string, kind: string)
      ensures this.message == message && classes == InitialClasses(kind)
    {
      this.message := message;
      classes := BaseClasses + {Colour(kind)};
    }

    /** The step run 100 ms after creation: slide into view. */
    method SlideIn()
      modifies this
      ensures classes == old(classes) - {OffScreen} + {OnScreen}
      ensures OnScreen in classes && OffScreen !in classes
    {
      classes := classes - {OffScreen};
      classes := classes + {OnScreen};
    }

    /** The first half of `hideNotification`: slide out of view; the element stays attached. */
    method SlideOut()
      modifies this
      ensures classes == old(classes) + {OffScreen} - {OnScreen}
      ensures OffScreen in classes && OnScreen !in classes
    {
      classes := classes + {OffScreen};
      classes := classes - {OnScreen};
    }
  }

  /** The `.notification` elements attached to the document, in document order. */
  class NotificationCenter {
    var attached: seq<Banner>

    /** At most one banner is live at a time. */
    ghost predicate Valid()
      reads this
    {
      |attached| <= 1
    }

    constructor ()
      ensures Valid() && attached == []
    {
      attached := [];
    }

    /**
     * `showNotification(message, kind)`: the first `.notification` in the
     * document is removed, then a new banner is appended; it is the only
     * one afterwards.
     */
    method Show(message: string, kind: string) returns (b: Banner)
      requires Valid()
      modifies this
      ensures Valid() && fresh(b)
      ensures attached == (if old(attached) == [] then [] else old(attached)[1..]) + [b]
      ensures attached == [b]
      ensures b.message == message && b.classes == InitialClasses(kind)
    {
      if attached != [] {
        attached := attached[1..];
      }
      b := new Banner(message, kind);
      attached := attached + [b];
    }

    /**
     * The step run 300 ms after `hideNotification(b)`: `b` is detached only
     * if it still has a parent, so a second hide of the same banner, or the
     * auto-hide of a banner already replaced, changes nothing.
     */
    method Detach(b: Banner)
      requires Valid()
      modifies this
      ensures Valid()
      ensures attached == Without(old(attached), b)
      ensures b !in attached
      ensures b !in old(attached) ==> attached == old(attached)
    {
      if b in attached {
        attached := Without(attached, b);
      }
    }
  }

  /**
   * A second notification replaces the first, and the first one's pending
   * auto-hide, when it fires, leaves the second in place.
   */
  method ReplaceThenStaleHide(center: NotificationCenter, first: string, second: string)
    returns (old1: Banner, new1: Banner)
    requires center.Valid()
    modifies center
    ensures center.Valid() && fresh(old1) && fresh(new1) && old1 != new1
    ensures center.attached == [new1] && new1.message == second
    ensures old1.message == first && old1.classes == InitialClasses("info") + {OffScreen} - {OnScreen}
  {
    old1 := center.Show(first, "info");
    new1 := center.Show(second, "info");
    old1.SlideOut();
    center.Detach(old1);
  }
}
