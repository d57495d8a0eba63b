/** Window Throttle 1.1: raw resize and scroll events only raise a flag; a
    poll tick turns each raised flag into one 'wt.scroll' or 'wt.resize'
    custom event whose detail is computed from the stored window data, then
    stores the new measurements. Browser measurements are parameters and
    dispatching an event appends it to `dispatched`. */
module WindowThrottle {
  import opened JsValues

  datatype Orientation = Landscape | Portrait

  /** A width/height pair, as in the resize detail's `changed`, `dimensions`
      and `delta`. */
  datatype Dims<T> = Dims(width: T, height: T)

  /** A y/x pair, as in the scroll detail's `delta` and `percent`. */
  datatype Axes<T> = Axes(y: T, x: T)

  /** What `window.matchMedia` answers for "(orientation: landscape)" and
      "(orientation: portrait)", or that the browser has no matchMedia. */
  datatype MediaSupport = NoMatchMedia | MatchMedia(landscape: bool, portrait: bool)

  /** What resize.event reads: innerWidth, innerHeight and matchMedia. */
  datatype ViewportReading = ViewportReading(innerWidth: int, innerHeight: int, media: MediaSupport)

  /** What scroll.event reads: the page offsets and document.body's scroll
      extents. */
  datatype ScrollReading = ScrollReading(pageYOffset: int, pageXOffset: int, scrollHeight: int, scrollWidth: int)

  datatype ResizeDetail = ResizeDetail(changed: Dims<bool>, dimensions: Dims<int>, delta: Dims<int>, orientation: Option<Orientation>)

  datatype ScrollDetail = ScrollDetail(delta: Axes<int>, percent: Axes<Number>)

  /** A custom event dispatched on window: 'wt.resize' or 'wt.scroll'. */
  datatype Event = WtResize(resize: ResizeDetail) | WtScroll(scroll: ScrollDetail)

  function Defaults(): (defaults: map<string, Value>)
  {
    map["detectResize" := Bool(true), "detectScroll" := Bool(true), "pollingTime" := Num(150), "useRAF" := Bool(false)]
  }

  // ---------------------------------------------------------------------
  // Options merge

  /** `forEach(source, function (value, prop) { target[prop] = source[prop]; })`
      over the own properties of a plain object. */
  method AssignEach<V>(target: map<string, V>, source: map<string, V>) returns (result: map<string, V>)
    ensures result.Keys == target.Keys + source.Keys
    ensures forall prop :: prop in source ==> result[prop] == source[prop]
    ensures forall prop :: prop in target && prop !in source ==> result[prop] == target[prop]
  {
    result := target;
    var pending := source.Keys;
    while pending != {}
      invariant pending <= source.Keys
      invariant result.Keys == target.Keys + (source.Keys - pending)
      invariant forall prop :: prop in source && prop !in pending ==> result[prop] == source[prop]
      invariant forall prop :: prop in target && prop !in source ==> result[prop] == target[prop]
      decreases pending
    {
      var prop :| prop in pending;
      result := result[prop := source[prop]];
      pending := pending - {prop};
    }
  }

  /** `extend(defaults, options)`: every key of either object; a user option
      overrides the default, a key the options lack keeps the default. */
  method Extend<V>(defaults: map<string, V>, options: map<string, V>) returns (extended: map<string, V>)
    ensures extended.Keys == defaults.Keys + options.Keys
    ensures forall prop :: prop in options ==> extended[prop] == options[prop]
    ensures forall prop :: prop in defaults && prop !in options ==> extended[prop] == defaults[prop]
    ensures extended == defaults + options
  {
    extended := AssignEach(map[], defaults);
    extended := AssignEach(extended, options);
  }

  /** `settings = extend(settings || defaults, options || {})` on the first
      call of init. */
  method Configure(options: map<string, Value>) returns (settings: map<string, Value>)
    ensures settings == Defaults() + options
  {
    settings := Extend(Defaults(), options);
  }

  /** Each stream is detected unless the user options give its flag a value
      other than `true`. */
  lemma DetectionFromOptions(options: map<string, Value>)
    ensures IsTrue(Defaults() + options, "detectResize") <==> "detectResize" !in options || options["detectResize"] == Bool(true)
    ensures IsTrue(Defaults() + options, "detectScroll") <==> "detectScroll" !in options || options["detectScroll"] == Bool(true)
  {
  }

  // ---------------------------------------------------------------------
  // Snapshot computations

  /** The value getOrientation leaves in windowData.orientation, which held
      `current` before. With matchMedia: the landscape query, then the
      portrait query, each overwriting when it matches. Without: width
      against height, by two tests that are exclusive and cover every case. */
  function OrientationAfter(media: MediaSupport, width: int, height: int, current: Option<Orientation>): (o: Option<Orientation>)
    ensures media.NoMatchMedia? ==> o == Some(if width >= height then Landscape else Portrait)
    ensures media.MatchMedia? && media.portrait ==> o == Some(Portrait)
    ensures media.MatchMedia? && media.landscape && !media.portrait ==> o == Some(Landscape)
    ensures media.MatchMedia? && !media.landscape && !media.portrait ==> o == current
  {
    match media
    case MatchMedia(landscape, portrait) =>
      var afterLandscape := if landscape then Some(Landscape) else current;
      if portrait then Some(Portrait) else afterLandscape
    case NoMatchMedia =>
      var afterFirst := if width > height || width == height then Some(Landscape) else current;
      if width < height then Some(Portrait) else afterFirst
  }

  /** Asking twice with the same answers gives what asking once gives, so the
      second call made by the first resize event changes nothing. */
  lemma OrientationSettles(media: MediaSupport, width: int, height: int, current: Option<Orientation>)
    ensures OrientationAfter(media, width, height, OrientationAfter(media, width, height, current))
         == OrientationAfter(media, width, height, current)
  {
  }

  /** The detail of a 'wt.resize' event, computed from the dimensions stored
      before the event, the measured ones and the orientation getOrientation
      has just stored. */
  function ResizeSnapshot(stored: Dims<int>, measured: Dims<int>, orientation: Option<Orientation>): (d: ResizeDetail)
    ensures d.changed.width <==> measured.width != stored.width
    ensures d.changed.height <==> measured.height != stored.height
    ensures d.dimensions == measured
    ensures stored.width + d.delta.width == measured.width
    ensures stored.height + d.delta.height == measured.height
    ensures d.orientation == orientation
  {
    ResizeDetail(
      Dims(measured.width != stored.width, measured.height != stored.height),
      measured,
      Dims(measured.width - stored.width, measured.height - stored.height),
      orientation)
  }

  /** One axis of the scroll percentage: the offset over the scrollable range
      (document extent minus the STORED viewport extent), times 100, capped
      at 100 from above only. */
  function ScrollPercent(offset: int, documentExtent: int, viewportExtent: int): (p: Number)
    ensures p != PosInfinity
    ensures p.Finite? ==> p.value <= 100.0
  {
    CapAt100(Times100(Divide(offset, documentExtent - viewportExtent)))
  }

  /** What the percentage is. For any nonzero scrollable range (negative
      when the document is shorter than the stored viewport) it is
      min(offset / range * 100, 100). By where the offset lies in a positive
      range: proportional inside it, 100 at or past its end, negative above
      its start (there is no lower clamp). For an empty range: 100 when
      scrolled at all, not finite otherwise. */
  lemma ScrollPercentCases(offset: int, documentExtent: int, viewportExtent: int)
    ensures var p := ScrollPercent(offset, documentExtent, viewportExtent);
      && (p.Finite? <==> documentExtent != viewportExtent || offset > 0)
      && (documentExtent != viewportExtent ==>
            var raw := offset as real / (documentExtent - viewportExtent) as real * 100.0;
            p == Finite(if raw > 100.0 then 100.0 else raw))
      && (documentExtent > viewportExtent && 0 <= offset <= documentExtent - viewportExtent ==>
            p.Finite? && 0.0 <= p.value && p.value * (documentExtent - viewportExtent) as real == offset as real * 100.0)
      && (documentExtent > viewportExtent && offset >= documentExtent - viewportExtent ==> p == Finite(100.0))
      && (documentExtent > viewportExtent && offset < 0 ==> p.Finite? && p.value < 0.0)
      && (documentExtent == viewportExtent ==> (p == Finite(100.0) <==> offset > 0))
  {
    var range := documentExtent - viewportExtent;
    if range != 0 {
      RawPercentInRange(offset, range);
    }
  }

  /** Over a nonzero scrollable range the raw percentage is finite and is
      offset / range * 100; over a positive one it is on the same side of 0
      and of 100 as the offset is of 0 and of the range. */
  lemma RawPercentInRange(offset: int, range: int)
    requires range != 0
    ensures Times100(Divide(offset, range)).Finite?
    ensures Times100(Divide(offset, range)).value * range as real == offset as real * 100.0
    ensures range > 0 && 0 <= offset ==> Times100(Divide(offset, range)).value >= 0.0
    ensures range > 0 && offset < 0 ==> Times100(Divide(offset, range)).value < 0.0
    ensures range > 0 && offset >= range ==> Times100(Divide(offset, range)).value >= 100.0
  {
    var q := offset as real / range as real;
    assert Divide(offset, range) == Finite(q);
    assert q * range as real == offset as real;
    assert (q * 100.0) * range as real == offset as real * 100.0;
    if range > 0 && offset >= range {
      assert q >= 1.0;
    }
  }

  /** There is no lower clamp: an offset above the top of the page (as
      elastic scrolling produces) gives a negative percentage. */
  lemma ScrollPercentHasNoLowerClamp()
    ensures ScrollPercent(-50, 2000, 1000) == Finite(-5.0)
  {
  }

  /** The detail of a 'wt.scroll' event, computed from the offsets and the
      viewport size stored before the event and the new reading. */
  function ScrollSnapshot(stored: Axes<int>, viewport: Dims<int>, reading: ScrollReading): (d: ScrollDetail)
    ensures stored.y + d.delta.y == reading.pageYOffset
    ensures stored.x + d.delta.x == reading.pageXOffset
    ensures d.percent.y == ScrollPercent(reading.pageYOffset, reading.scrollHeight, viewport.height)
    ensures d.percent.x == ScrollPercent(reading.pageXOffset, reading.scrollWidth, viewport.width)
  {
    ScrollDetail(
      Axes(reading.pageYOffset - stored.y, reading.pageXOffset - stored.x),
      Axes(ScrollPercent(reading.pageYOffset, reading.scrollHeight, viewport.height),
           ScrollPercent(reading.pageXOffset, reading.scrollWidth, viewport.width)))
  }

  // ---------------------------------------------------------------------
  // The history of resize details

  /** Each resize detail's delta leads from the dimensions of the previous
      one to its own. */
  ghost predicate ResizesTelescope(rs: seq<ResizeDetail>)
  {
    // Two bound variables, so that the trigger is the pair rs[i], rs[j]:
    // written with rs[i-1] and rs[i], the quantifier would match its own
    // instances one index further each time.
    forall i, j :: 0 <= i < j < |rs| && j == i + 1 ==> Follows(rs[i], rs[j])
  }

  /** `next`'s delta leads from `prev`'s dimensions to its own. */
  ghost predicate Follows(prev: ResizeDetail, next: ResizeDetail)
  {
    prev.dimensions.width + next.delta.width == next.dimensions.width &&
    prev.dimensions.height + next.delta.height == next.dimensions.height
  }

  /** A detail that follows the last one keeps the history telescoping. */
  lemma TelescopeExtend(rs: seq<ResizeDetail>, d: ResizeDetail)
    requires ResizesTelescope(rs)
    requires rs != [] ==> Follows(rs[|rs| - 1], d)
    ensures ResizesTelescope(rs + [d])
  {
  }

  /** Over a whole telescoping history, the deltas after the first add up
      to the change from the first dimensions to the last. */
  ghost function DeltaSum(rs: seq<ResizeDetail>): (sum: Dims<int>)
  {
    if rs == [] then Dims(0, 0)
    else
      var earlier := DeltaSum(rs[..|rs| - 1]);
      Dims(earlier.width + rs[|rs| - 1].delta.width, earlier.height + rs[|rs| - 1].delta.height)
  }

  lemma {:induction false} TelescopeSum(rs: seq<ResizeDetail>)
    requires |rs| > 0 && ResizesTelescope(rs)
    ensures rs[0].dimensions.width + DeltaSum(rs[1..]).width == rs[|rs| - 1].dimensions.width
    ensures rs[0].dimensions.height + DeltaSum(rs[1..]).height == rs[|rs| - 1].dimensions.height
  {
    if |rs| > 1 {
      var init := rs[..|rs| - 1];
      assert ResizesTelescope(init) by {
        forall i, j | 0 <= i < j < |init| && j == i + 1 ensures Follows(init[i], init[j]) {
          assert init[i] == rs[i] && init[j] == rs[j];
        }
      }
      TelescopeSum(init);
      assert rs[1..][..|rs[1..]| - 1] == init[1..];
      assert Follows(rs[|rs| - 2], rs[|rs| - 1]);
    }
  }

  // ---------------------------------------------------------------------
  // The plugin state

  /** The plugin's settings and its `windowData` record. */
  class Throttle {
    const settings: map<string, Value>
    var hasResized: bool
    var hasScrolled: bool
    var width: int
    var height: int
    var scrollPositionY: int
    var scrollPositionX: int
    var orientation: Option<Orientation>
    /** Every event dispatched on window, oldest first. */
    var dispatched: seq<Event>
    /** The details of the 'wt.resize' events in `dispatched`, oldest first. */
    ghost var resizes: seq<ResizeDetail>
    /** The sum of the deltas of the 'wt.scroll' events in `dispatched`. */
    ghost var scrollTotal: Axes<int>
    /** The offsets stored when scroll detection started; the scroll deltas
        add up from here. */
    ghost var scrollOrigin: Axes<int>

    predicate DetectResize()
    {
      IsTrue(settings, "detectResize")
    }

    predicate DetectScroll()
    {
      IsTrue(settings, "detectScroll")
    }

    /** The stored data only change when an event is dispatched: the last
        'wt.resize' detail carries the stored dimensions and orientation,
        consecutive resize deltas chain, and the scroll deltas add up to the
        distance from the starting offsets to the stored ones. */
    ghost predicate Valid()
      reads this`resizes, this`width, this`height, this`orientation
      reads this`scrollTotal, this`scrollPositionY, this`scrollPositionX, this`scrollOrigin
    {
      && ResizesTelescope(resizes)
      && (resizes != [] ==>
            resizes[|resizes| - 1].dimensions == Dims(width, height) &&
            resizes[|resizes| - 1].orientation == orientation)
      && scrollTotal == Axes(scrollPositionY - scrollOrigin.y, scrollPositionX - scrollOrigin.x)
    }

    /** The stored size is the size of the first 'wt.resize' detail plus the
        deltas of every later one. */
    lemma SizeFromHistory()
      requires Valid() && resizes != []
      ensures resizes[0].dimensions.width + DeltaSum(resizes[1..]).width == width
      ensures resizes[0].dimensions.height + DeltaSum(resizes[1..]).height == height
    {
      TelescopeSum(resizes);
    }

    /** The windowData record starts zeroed; then methods.init runs with the
        merged settings: each enabled stream stores its starting measurements
        and dispatches its first event. */
    constructor (settings: map<string, Value>, viewport: ViewportReading, scroll: ScrollReading)
      ensures Valid()
      ensures this.settings == settings
      ensures !hasResized && !hasScrolled
      ensures DetectResize() ==>
                width == viewport.innerWidth && height == viewport.innerHeight &&
                orientation == OrientationAfter(viewport.media, viewport.innerWidth, viewport.innerHeight, None)
      ensures !DetectResize() ==> width == 0 && height == 0 && orientation == None
      ensures DetectScroll() ==> scrollPositionY == scroll.pageYOffset && scrollPositionX == scroll.pageXOffset
      ensures !DetectScroll() ==> scrollPositionY == 0 && scrollPositionX == 0
      ensures dispatched ==
                (if DetectResize()
                 then [WtResize(ResizeSnapshot(Dims(width, height), Dims(width, height), orientation))]
                 else [])
                + (if DetectScroll()
                   then [WtScroll(ScrollSnapshot(Axes(scrollPositionY, scrollPositionX), Dims(width, height), scroll))]
                   else [])
      ensures resizes == (if DetectResize() then [dispatched[0].resize] else [])
      ensures scrollTotal == Axes(0, 0) && scrollOrigin == Axes(scrollPositionY, scrollPositionX)
    {
      this.settings := settings;
      hasResized, hasScrolled := false, false;
      width, height := 0, 0;
      scrollPositionY, scrollPositionX := 0, 0;
      orientation := None;
      dispatched := [];
      resizes := [];
      scrollTotal := Axes(0, 0);
      scrollOrigin := Axes(0, 0);
      new;
      ghost var started: seq<Event> := [];
      if DetectResize() {
        width := viewport.innerWidth;
        height := viewport.innerHeight;
        GetOrientation(viewport.media, width, height);
        OrientationSettles(viewport.media, width, height, None);
        ResizeEvent(viewport);
        started := [WtResize(ResizeSnapshot(Dims(width, height), Dims(width, height), orientation))];
      }
      assert dispatched == started;
      if DetectScroll() {
        scrollPositionY := scroll.pageYOffset;
        scrollPositionX := scroll.pageXOffset;
        scrollOrigin := Axes(scroll.pageYOffset, scroll.pageXOffset);
        ScrollEvent(scroll);
      }
    }

    /** The 'resize' listener, bound only when detectResize is true. */
    method OnResize()
      requires Valid()
      modifies this`hasResized
      ensures Valid()
      ensures hasResized == (old(hasResized) || DetectResize())
    {
      if DetectResize() {
        hasResized := true;
      }
    }

    /** The 'scroll' listener, bound only when detectScroll is true. */
    method OnScroll()
      requires Valid()
      modifies this`hasScrolled
      ensures Valid()
      ensures hasScrolled == (old(hasScrolled) || DetectScroll())
    {
      if DetectScroll() {
        hasScrolled := true;
      }
    }

    /** resize.getOrientation: stores the orientation for the given size. */
    method GetOrientation(media: MediaSupport, w: int, h: int)
      modifies this`orientation
      ensures orientation == OrientationAfter(media, w, h, old(orientation))
    {
      match media {
        case MatchMedia(landscape, portrait) =>
          if landscape { orientation := Some(Landscape); }
          if portrait { orientation := Some(Portrait); }
        case NoMatchMedia =>
          if w > h || w == h { orientation := Some(Landscape); }
          if w < h { orientation := Some(Portrait); }
      }
    }

    /** resize.event: the detail is built and dispatched from the stored
        dimensions first; only then are the new dimensions stored. */
    method ResizeEvent(viewport: ViewportReading)
      requires Valid()
      modifies this`width, this`height, this`orientation, this`dispatched, this`resizes
      ensures Valid()
      ensures orientation == OrientationAfter(viewport.media, viewport.innerWidth, viewport.innerHeight, old(orientation))
      ensures dispatched == old(dispatched) +
                [WtResize(ResizeSnapshot(Dims(old(width), old(height)), Dims(viewport.innerWidth, viewport.innerHeight), orientation))]
      ensures width == viewport.innerWidth && height == viewport.innerHeight
      ensures resizes == old(resizes) + [dispatched[|dispatched| - 1].resize]
    {
      var newWidth, newHeight := viewport.innerWidth, viewport.innerHeight;
      var oldWidth, oldHeight := width, height;
      GetOrientation(viewport.media, newWidth, newHeight);
      var eventObject := ResizeSnapshot(Dims(oldWidth, oldHeight), Dims(newWidth, newHeight), orientation);
      TelescopeExtend(resizes, eventObject);
      dispatched := dispatched + [WtResize(eventObject)];
      resizes := resizes + [eventObject];
      width := newWidth;
      height := newHeight;
    }

    /** scroll.event: the detail is built and dispatched from the stored
        offsets first; only then are the new offsets stored. Width, height
        and orientation are left alone. */
    method ScrollEvent(reading: ScrollReading)
      requires Valid()
      modifies this`scrollPositionY, this`scrollPositionX, this`dispatched, this`scrollTotal
      ensures Valid()
      ensures dispatched == old(dispatched) +
                [WtScroll(ScrollSnapshot(Axes(old(scrollPositionY), old(scrollPositionX)), Dims(width, height), reading))]
      ensures scrollPositionY == reading.pageYOffset && scrollPositionX == reading.pageXOffset
      ensures width == old(width) && height == old(height) && orientation == old(orientation)
      ensures scrollTotal == Axes(old(scrollTotal).y + dispatched[|dispatched| - 1].scroll.delta.y,
                                  old(scrollTotal).x + dispatched[|dispatched| - 1].scroll.delta.x)
    {
      var eventObject := ScrollSnapshot(Axes(scrollPositionY, scrollPositionX), Dims(width, height), reading);
      dispatched := dispatched + [WtScroll(eventObject)];
      scrollTotal := Axes(scrollTotal.y + eventObject.delta.y, scrollTotal.x + eventObject.delta.x);
      scrollPositionY := reading.pageYOffset;
      scrollPositionX := reading.pageXOffset;
    }

    /** checkForChanges, one poll tick: a raised flag whose detection is on
        yields exactly one event and is lowered; scroll goes first, so both
        details are computed from the data stored before the tick. A raised
        flag whose detection is off stays raised and yields nothing. */
    method CheckForChanges(scroll: ScrollReading, viewport: ViewportReading)
      requires Valid()
      modifies this
      ensures Valid()
      ensures hasScrolled == (old(hasScrolled) && !DetectScroll())
      ensures hasResized == (old(hasResized) && !DetectResize())
      ensures dispatched == old(dispatched)
                + (if old(hasScrolled) && DetectScroll()
                   then [WtScroll(ScrollSnapshot(Axes(old(scrollPositionY), old(scrollPositionX)), Dims(old(width), old(height)), scroll))]
                   else [])
                + (if old(hasResized) && DetectResize()
                   then [WtResize(ResizeSnapshot(Dims(old(width), old(height)), Dims(viewport.innerWidth, viewport.innerHeight), orientation))]
                   else [])
      ensures if old(hasScrolled) && DetectScroll()
              then scrollPositionY == scroll.pageYOffset && scrollPositionX == scroll.pageXOffset
              else scrollPositionY == old(scrollPositionY) && scrollPositionX == old(scrollPositionX)
      ensures if old(hasResized) && DetectResize()
              then width == viewport.innerWidth && height == viewport.innerHeight &&
                   orientation == OrientationAfter(viewport.media, viewport.innerWidth, viewport.innerHeight, old(orientation))
              else width == old(width) && height == old(height) && orientation == old(orientation)
      ensures resizes == old(resizes) +
                (if old(hasResized) && DetectResize() then [dispatched[|dispatched| - 1].resize] else [])
      ensures scrollOrigin == old(scrollOrigin)
    {
      if hasScrolled && DetectScroll() {
        ScrollEvent(scroll);
        hasScrolled := false;
      }
      if hasResized && DetectResize() {
        ResizeEvent(viewport);
        hasResized := false;
      }
    }
  }
}
