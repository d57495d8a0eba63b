# Window Throttle, modelled in Dafny

Window Throttle turns the browser's high-frequency `resize` and `scroll`
events into throttled custom events. The raw listeners only raise a flag in
the plugin's `windowData` record (`hasResized`, `hasScrolled`). A poll tick
(`checkForChanges`) turns each raised flag into one event. That event's
detail is computed from the data stored in `windowData` and a fresh
measurement. The tick then stores the new measurement and lowers the flag.

The project models two versions of this machine:

- `window_throttle.dfy` (module `WindowThrottle`) models `src/windowThrottle.js`, version 1.1:
  - the `windowData` record and settings, as the class `Throttle`;
  - the options merge `extend`/`forEach`;
  - the 'wt.resize' detail (changed flags, dimensions, signed deltas, orientation) and `getOrientation`;
  - the 'wt.scroll' detail (signed deltas, percentages capped at 100 from above only);
  - `checkForChanges`.
- `jquery_window_throttle.dfy` (module `JQueryWindowThrottle`) models `src/jquery.windowThrottle.js`, version 0.1:
  - the same flag machine, as the class `JQueryThrottle`;
  - its own payloads: the scroll delta is stored minus current, the percent is a fraction of the document height, and the stored scroll position is never written.
- `js_values.dfy` (module `JsValues`) holds what both versions share:
  - settings values;
  - `settings.x === true`;
  - the JavaScript numbers a percentage can evaluate to. That is an exact quotient or, for a zero divisor, positive infinity, negative infinity or NaN.

Browser measurements become parameters of the methods that read them:
`innerWidth`/`innerHeight`, the answers of `matchMedia`, the page offsets,
`document.body.scrollHeight`/`scrollWidth`, and the jQuery `width()`,
`height()` and `scrollTop()`. Dispatching or triggering an event appends it
to the class's `dispatched` sequence.

In the newer version the constructor establishes the invariant `Throttle.Valid`, and the listeners, the event methods and the poll tick keep it. (`GetOrientation` changes only the orientation and is called only from the constructor and `ResizeEvent`, which restore the invariant.) It is stated over ghost records that each event method updates together with `dispatched`: the resize details, the total of the scroll deltas, and the offsets stored when scroll detection started. The invariant says:

- consecutive 'wt.resize' deltas chain from one set of dimensions to the next;
- the last resize detail carries the stored dimensions and orientation;
- the scroll deltas add up to the distance the stored offsets have moved since scroll detection started.

The constructor and `CheckForChanges` say how these records follow `dispatched`. The resize record starts as the detail of the first 'wt.resize' event (empty when resize detection is off) and gains exactly the detail of each later one. The scroll total starts at 0 and the starting offsets never change. So the invariant is a statement about the dispatched events: the stored data change only when an event is dispatched, and `Throttle.SizeFromHistory` recovers the stored size from the dispatched resize details.

## Model

| member | source | states |
|---|---|---|
| `JsValues.Divide` | src/windowThrottle.js:231-232 | The quotient times the divisor gives back the dividend when the divisor is nonzero. A zero divisor gives +Infinity, -Infinity or NaN according to the sign of the dividend. |
| `JsValues.CapAt100` | src/windowThrottle.js:233-234 | Anything above 100, +Infinity included, becomes exactly 100. Anything that does not exceed 100 passes unchanged, so there is no lower clamp. |
| `WindowThrottle.AssignEach` | src/windowThrottle.js:62-74 | Copying every own property of the source into the target gives the keys of both. The source's values win and the target keeps the rest. |
| `WindowThrottle.Extend` | src/windowThrottle.js:83-92 | The merge holds every key of defaults and options. Option values override defaults, and keys absent from the options keep the default. The result equals the map union `defaults + options`. |
| `WindowThrottle.Configure` | src/windowThrottle.js:324 | The settings are the defaults overridden by the user options. |
| `WindowThrottle.DetectionFromOptions` | src/windowThrottle.js:42-48 | A stream is detected exactly when the options leave its flag out or set it to `true`. |
| `WindowThrottle.OrientationAfter` | src/windowThrottle.js:203-215 | Without matchMedia the result is total: landscape when width >= height, portrait otherwise. With matchMedia, portrait wins when both queries match, landscape is stored when only it matches, and the previous value stays when neither matches. |
| `WindowThrottle.OrientationSettles` | src/windowThrottle.js:121-128 | The repeated getOrientation call at start-up changes nothing: applying it twice with the same answers equals applying it once. |
| `WindowThrottle.ResizeSnapshot` | src/windowThrottle.js:170-190 | `changed.width`/`changed.height` are true iff the measured value differs from the stored one. Stored + delta = measured, and the dimensions are the measured ones. |
| `WindowThrottle.ScrollPercent` | src/windowThrottle.js:231-234 | The published percent is never above 100 and never +Infinity, whatever the offset and extents. |
| `WindowThrottle.ScrollPercentCases` | src/windowThrottle.js:231-234 | For any nonzero scrollable range (document extent minus stored viewport extent, negative when the document is shorter) the percent is exactly min(offset/range*100, 100). In a positive range it lies in [0,100] inside the range, is 100 at or past the end, and is negative for a negative offset. With a zero range it is 100 for a positive offset, and otherwise not finite. |
| `WindowThrottle.ScrollPercentHasNoLowerClamp` | src/windowThrottle.js:233-234 | An offset of -50 in a 2000-high document with a 1000-high stored viewport yields -5, not 0. |
| `WindowThrottle.ScrollSnapshot` | src/windowThrottle.js:225-242 | Stored offset + delta = new offset on each axis. Each percent uses the stored viewport extent, not the current one. |
| `WindowThrottle.TelescopeSum` | src/windowThrottle.js:178-195 | In a history of resize details whose deltas chain, the first dimensions plus all later deltas equal the last dimensions. |
| `WindowThrottle.Throttle.SizeFromHistory` | src/windowThrottle.js:178-195 | In a valid throttle with at least one 'wt.resize' detail, the stored width and height equal the first detail's dimensions plus the deltas of all later details. |
| `WindowThrottle.Throttle.constructor` | src/windowThrottle.js:103-144 | Flags start lowered. An enabled resize stream stores the measured size and orientation, then dispatches a detail with zero deltas and nothing changed. An enabled scroll stream stores the offsets, then dispatches its detail. A disabled stream keeps the zeroed fields. The resize record holds exactly the first 'wt.resize' detail, the scroll total is 0 and the scroll origin is the stored offsets. |
| `WindowThrottle.Throttle.OnResize` | src/windowThrottle.js:117 | The resize flag is raised when resize detection is on; otherwise no listener exists and the flag is unchanged. |
| `WindowThrottle.Throttle.OnScroll` | src/windowThrottle.js:133 | The scroll flag is raised when scroll detection is on; otherwise it is unchanged. |
| `WindowThrottle.Throttle.GetOrientation` | src/windowThrottle.js:203-215 | The stored orientation becomes `OrientationAfter` of the previous one. |
| `WindowThrottle.Throttle.ResizeEvent` | src/windowThrottle.js:168-196 | One 'wt.resize' event is appended. Its detail is computed from the dimensions stored before the event and the orientation just stored. Afterwards the stored dimensions are the measured ones, and the invariant is kept. |
| `WindowThrottle.Throttle.ScrollEvent` | src/windowThrottle.js:223-248 | One 'wt.scroll' event is appended, computed from the offsets stored before the event. Afterwards the stored offsets are the new ones. Width, height and orientation do not change. |
| `WindowThrottle.Throttle.CheckForChanges` | src/windowThrottle.js:271-282 | A raised flag with detection on yields exactly one event and is lowered. A raised flag with detection off stays raised and yields nothing. Scroll comes before resize. Both details use the data stored before the tick. The resize record gains exactly the dispatched resize detail, and the scroll origin is unchanged. |
| `JQueryWindowThrottle.Settings` | src/jquery.windowThrottle.js:16-23 | The settings hold the defaults' keys and the options' defined keys. Defined option values win, and the others keep the default. |
| `JQueryWindowThrottle.ResizePayload` | src/jquery.windowThrottle.js:57-72 | `widthChanged`/`heightChanged` are true iff the measured value differs from the stored one. The payload carries the measured size. |
| `JQueryWindowThrottle.ScrollPayload` | src/jquery.windowThrottle.js:85-96 | The delta is stored minus current (old - new). The percent times the document height is scrollTop: a fraction in [0,1] inside the document, not scaled by 100 and not capped. |
| `JQueryWindowThrottle.JQueryThrottle.constructor` | src/jquery.windowThrottle.js:22-50 | The settings are merged. One resize payload with nothing changed is triggered, then one scroll payload with delta -scrollTop. The size stored is the one measured after the trigger. |
| `JQueryWindowThrottle.JQueryThrottle.OnScroll` | src/jquery.windowThrottle.js:42 | The scroll flag is raised. |
| `JQueryWindowThrottle.JQueryThrottle.OnResize` | src/jquery.windowThrottle.js:43 | The resize flag is raised. |
| `JQueryWindowThrottle.JQueryThrottle.ResizeEvent` | src/jquery.windowThrottle.js:56-77 | One resize payload is appended, computed from the size stored before the event. The size stored afterwards is the one measured after the trigger. |
| `JQueryWindowThrottle.JQueryThrottle.ScrollEvent` | src/jquery.windowThrottle.js:84-99 | One scroll payload is appended and nothing else changes. The stored position stays 0, so the delta is always -scrollTop. |
| `JQueryWindowThrottle.JQueryThrottle.CheckForChanges` | src/jquery.windowThrottle.js:112-121 | Each raised flag yields one event and is lowered, scroll before resize. No setting switches a stream off. |

## Left out

- Listener registration (src/windowThrottle.js:117-118,133; src/jquery.windowThrottle.js:42-43) is modelled only as the flag-raising methods `OnResize`/`OnScroll`.
  - The 'orientationchangei' listener (src/windowThrottle.js:118) listens for an event name no browser fires, so it never raises the flag. It has no method of its own.
- The CustomEvent polyfill, `dispatchEvent` and `$window.trigger` are not modelled. Dispatch is an append to `dispatched`, and listeners receiving the events are not modelled.
- Timing is not modelled:
  - the `setRAF` vendor-prefix detection;
  - the `poll` loops on requestAnimationFrame or setInterval.
  
  The model has a single poll tick, `CheckForChanges`. The jQuery version starts `poll` twice (once from `resize.init`, once from `scroll.init`), and its `polling` guard is a local variable, so it does not prevent the second loop. Only the effect of one tick is modelled.
- The UMD wrapper and the `supports` feature test are not modelled.
  - The public `init` (src/windowThrottle.js:318-329) assigns to `Windowwt`, an undefined identifier, so as written it throws before anything runs.
  - The model splits what it evidently intends into `Configure` (the merge at line 324) and the `Throttle` constructor (`methods.init`).
  - `settings || defaults` on a second `init` call is not modelled.
- The jQuery public `load` (src/jquery.windowThrottle.js:136-141) is not modelled. It calls `checkSamePage`, `currentLocation` and `methods.loadResource`, none of which is defined.
- `jQuery.extend` is not part of this model. `Settings` follows jQuery's documented behaviour for `$.extend({}, defaults, options)`: a shallow copy that skips undefined values.
- Percentages are exact reals; IEEE 754 rounding is not modelled. Division by zero is modelled: the infinities and NaN it yields. Negative zero is not modelled. Measurements are integers, so fractional page offsets are not modelled.
- `forEach`'s branch for arrays and NodeLists (src/windowThrottle.js:69-73) is not modelled: options are plain objects (maps from property names to values).
- Between two readings, event listeners running inside a dispatch could change the layout. Each event method therefore takes its own reading. The `Throttle` constructor uses one reading for both the start-up measurement and the first event, because no dispatch happens between them.
- Coalescing features that appear in neither source file are not modelled:
  - settle timers;
  - a debounce mode;
  - CSS markers;
  - end events;
  - listener isolation;
  - `isActive`;
  - a lower clamp of the percentage to 0, or a 0 for an empty scroll range.

  The model follows the code: `ScrollPercentHasNoLowerClamp` exhibits a negative percentage.
