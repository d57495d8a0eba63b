/** jQuery Window Throttle 0.1, the older version of the same machine: raw
    'scroll' and 'resize' events raise a flag, and a poll tick triggers one
    'throttle.scroll' and/or 'throttle.resize' event on the window. Its
    payloads differ from the newer plugin: the scroll delta is stored minus
    current, the percent is a plain fraction of the document height, and the
    stored scroll position is never updated. */
module JQueryWindowThrottle {
  import opened JsValues

  /** `$window.width()` and `$window.height()`. */
  datatype Size = Size(width: int, height: int)

  /** `$window.scrollTop()` and `jQuery(document).height()`. */
  datatype ScrollReading = ScrollReading(scrollTop: int, documentHeight: int)

  /** An event triggered on the window, by its type. */
  datatype Event =
    | ThrottleResize(widthChanged: bool, heightChanged: bool, width: int, height: int)
    | ThrottleScroll(delta: int, percent: Number)

  function Defaults(): (defaults: map<string, Value>)
  {
    map["pollingTime" := Num(150), "useRAF" := Bool(true)]
  }

  /** `$.extend({}, defaults, options)`: a shallow merge in which the user's
      options win, except that jQuery does not copy a property whose value is
      undefined. */
  function Settings(options: map<string, Value>): (settings: map<string, Value>)
    ensures settings.Keys == Defaults().Keys + (set k | k in options && options[k] != Undefined)
    ensures forall k :: k in options && options[k] != Undefined ==> settings[k] == options[k]
    ensures forall k :: k in Defaults() && (k !in options || options[k] == Undefined) ==> settings[k] == Defaults()[k]
  {
    Defaults() + map k | k in options && options[k] != Undefined :: options[k]
  }

  /** The 'throttle.resize' payload: each changed flag says whether the
      measured dimension differs from the stored one. */
  function ResizePayload(stored: Size, measured: Size): (e: Event)
    ensures e.ThrottleResize?
    ensures e.widthChanged <==> measured.width != stored.width
    ensures e.heightChanged <==> measured.height != stored.height
    ensures e.width == measured.width && e.height == measured.height
  {
    ThrottleResize(measured.width != stored.width, measured.height != stored.height, measured.width, measured.height)
  }

  /** The 'throttle.scroll' payload: the delta runs from the current offset
      back to the stored position (old minus new), and the percent is the
      offset as a fraction of the whole document height, neither scaled by
      100 nor capped. */
  function ScrollPayload(scrollPosition: int, reading: ScrollReading): (e: Event)
    ensures e.ThrottleScroll?
    ensures reading.scrollTop + e.delta == scrollPosition
    ensures e.percent.Finite? <==> reading.documentHeight != 0
    ensures e.percent.Finite? ==> e.percent.value * reading.documentHeight as real == reading.scrollTop as real
    ensures 0 <= reading.scrollTop <= reading.documentHeight && reading.documentHeight > 0 ==>
              0.0 <= e.percent.value <= 1.0
  {
    ThrottleScroll(scrollPosition - reading.scrollTop, Divide(reading.scrollTop, reading.documentHeight))
  }

  /** The state that `$.windowThrottle(options)` closes over: its settings
      and its `windowData` record. */
  class JQueryThrottle {
    const settings: map<string, Value>
    var hasResized: bool
    var hasScrolled: bool
    var width: int
    var height: int
    var scrollPosition: int
    /** Every event triggered on the window, oldest first. */
    var dispatched: seq<Event>

    /** Nothing ever writes the stored scroll position after it starts at 0. */
    ghost predicate Valid()
      reads this`scrollPosition
    {
      scrollPosition == 0
    }

    /** `$.windowThrottle(options)`: merge the settings, zero the windowData
        record, store the window size, then trigger one resize event and one
        scroll event. The size stored after the resize event is the one
        measured again after the trigger. */
    constructor (options: map<string, Value>, viewport: Size, afterTrigger: Size, scroll: ScrollReading)
      ensures Valid()
      ensures settings == Settings(options)
      ensures !hasResized && !hasScrolled
      ensures width == afterTrigger.width && height == afterTrigger.height
      ensures dispatched == [ResizePayload(viewport, viewport), ScrollPayload(0, scroll)]
    {
      settings := Settings(options);
      hasResized, hasScrolled := false, false;
      width, height := 0, 0;
      scrollPosition := 0;
      dispatched := [];
      new;
      width := viewport.width;
      height := viewport.height;
      ResizeEvent(viewport, afterTrigger);
      ScrollEvent(scroll);
    }

    /** The 'scroll' listener. */
    method OnScroll()
      modifies this`hasScrolled
      ensures hasScrolled
    {
      hasScrolled := true;
    }

    /** The 'resize' listener. */
    method OnResize()
      modifies this`hasResized
      ensures hasResized
    {
      hasResized := true;
    }

    /** resize.event: the payload compares the measurement with the stored
        size; after the trigger the window is measured again and that is
        what is stored. */
    method ResizeEvent(measured: Size, afterTrigger: Size)
      modifies this`width, this`height, this`dispatched
      ensures dispatched == old(dispatched) + [ResizePayload(Size(old(width), old(height)), measured)]
      ensures width == afterTrigger.width && height == afterTrigger.height
    {
      var eventObject := ResizePayload(Size(width, height), measured);
      dispatched := dispatched + [eventObject];
      width := afterTrigger.width;
      height := afterTrigger.height;
    }

    /** scroll.event: triggers the payload and writes nothing back, so its
        delta is always the negated offset. */
    method ScrollEvent(reading: ScrollReading)
      requires Valid()
      modifies this`dispatched
      ensures Valid()
      ensures dispatched == old(dispatched) + [ScrollPayload(scrollPosition, reading)]
      ensures dispatched[|dispatched| - 1].delta == -reading.scrollTop
    {
      var eventObject := ScrollPayload(scrollPosition, reading);
      dispatched := dispatched + [eventObject];
    }

    /** checkForChanges, one poll tick: each raised flag yields one event and
        is lowered, scroll before resize; nothing in the settings switches a
        stream off. */
    method CheckForChanges(scroll: ScrollReading, measured: Size, afterTrigger: Size)
      requires Valid()
      modifies this
      ensures Valid()
      ensures !hasScrolled && !hasResized
      ensures dispatched == old(dispatched)
                + (if old(hasScrolled) then [ScrollPayload(0, scroll)] else [])
                + (if old(hasResized) then [ResizePayload(Size(old(width), old(height)), measured)] else [])
      ensures if old(hasResized)
              then width == afterTrigger.width && height == afterTrigger.height
              else width == old(width) && height == old(height)
    {
      if hasScrolled {
        ScrollEvent(scroll);
        hasScrolled := false;
      }
      if hasResized {
        ResizeEvent(measured, afterTrigger);
        hasResized := false;
      }
    }
  }
}
