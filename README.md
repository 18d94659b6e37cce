# Scroller and statistics controllers, modelled in Dafny

This project models two view controllers of the FSS desktop client.

**The scroller controller** drives one custom scrollbar view shared by a list of "synced" containers.
- It sizes every container to the scroll element's height less a margin, and tags each with the `fss-scroll-modifier` class.
- It turns mouse-wheel and page-key input into deltas for the view's scroller. An inertial filter drops wheel events that arrive within 4 ms of the last applied one.
- It re-scrolls every container when the scroller moves. Pending scroll requests are coalesced so that the latest one wins.
- After each layout it resizes the view and corrects any container left out of sync.

**The statistics controller** fills a details panel.
- It follows the view's dotted `refName` into a details record.
- It turns each own property of what it finds into an item config: a display field for a scalar, a container of display fields for an object.

The model has five modules, one file each:

- `Optional` (`optional.dfy`): the `Option` type that stands for values that may be `undefined`.
- `JsValues` (`js_values.dfy`): the JavaScript rules the statistics controller depends on. These are truthiness, `typeof`, property reads on objects and strings, `for … in` with `hasOwnProperty`, `indexOf` and `split`.
- `StatsController` (`stats_controller.dfy`): the statistics controller. The path walk and the config builders are functions. The loops of `getGeneralInfo`, `getItemsConfig` and `loadDetails` are methods proved against those functions. The details view is a class whose items and title `LoadDetails` sets.
- `ScrollerPolicy` (`scroller_policy.dfy`): the scroller's pure decisions. These are the wheel delta, the step, the inertial filter, the scroll-allowed and prevent-scroll tests, and the scrollbar width.
- `ScrollerController` (`scroller_controller.dfy`): the `Scroller` class with the controller's state.
  - Its methods follow the source's methods. This includes the count-down loops over the sync list in `syncLayouts`, `scrollAllTo` and `fixLayoutScroll`.
  - Its ghost `scrollLog` records every `doScroll` call.
  - Its invariant `Valid` states that once a scroll element is set, every synced container has the height the last sync applied (the scroll element's height then, less the margin) and carries the modifier class.

Measurements of the page are arguments of the methods that read them, taken when the method runs, and so are the clock readings of a wheel event. They are the scroll element's height, the spotlight view's geometry, the body's height and mask, the active window, the platform, whether the hovered element is scrollable, whether the scroller is animating, and the scroll position of the view's scroller. Of the scroll element and the spotlight view the controller keeps only whether one is set. The synced containers are the exception: their inner heights and scroll offsets are fields of the container records, which only the controller's own commands change. The two task runners (100 ms interval) are pending flags: `restart` sets the flag, `stop` clears it, and `ScrollTaskTick`/`LayoutTaskTick` stand for one run of the task.

## Model

| member | source | states |
|---|---|---|
| StatsController.GetGeneralInfo | app/view/desktop/tabpanel/browser/details/stats/StatsController.js:37-50 | the while loop returns the dotted-path walk `GeneralInfo`: one property read per segment, stopping at the first falsy value, and skipped when `indexOf('.')` is 0; the number of reads it performs is `WalkSteps` of the path |
| StatsController.WalkSteps | app/view/desktop/tabpanel/browser/details/stats/StatsController.js:43-46 | the walk reads at most one property per segment, and a walk that stops early ends on a falsy value |
| StatsController.TwoSegmentPath | app/view/desktop/tabpanel/browser/details/stats/StatsController.js:40-46 | for `refName` "a.b" with truthy intermediate values, the general info is `details[a][b]` |
| StatsController.WalkStopsAtFalsy | app/view/desktop/tabpanel/browser/details/stats/StatsController.js:43-46 | the loop stops at the first falsy value after one read and returns that value |
| StatsController.TruthyResultReadsWholePath | app/view/desktop/tabpanel/browser/details/stats/StatsController.js:43-46 | a truthy result means every segment of the path was read |
| StatsController.NoDotLooksUpOnce | app/view/desktop/tabpanel/browser/details/stats/StatsController.js:40-46 | a `refName` without a dot still reads `details[refName]`, because `indexOf` gives the truthy -1 |
| StatsController.LeadingDotReturnsDetails | app/view/desktop/tabpanel/browser/details/stats/StatsController.js:40 | a `refName` starting with a dot returns `details` unchanged, because `indexOf` gives the falsy 0 |
| StatsController.GetItemsConfig | app/view/desktop/tabpanel/browser/details/stats/StatsController.js:62-76 | the `for … in` loop builds exactly `ItemsConfig(item)` |
| StatsController.ItemConfig | app/view/desktop/tabpanel/browser/details/stats/StatsController.js:52-60 | a flex-1 display field labelled on top with the given label and value |
| StatsController.ItemsConfigShape | app/view/desktop/tabpanel/browser/details/stats/StatsController.js:62-76 | `getItemsConfig` is a flex-1 container with one top-labelled flex-1 display field per own key, in key order, valued by `item[key]` |
| StatsController.FieldConfigsAt | app/view/desktop/tabpanel/browser/details/stats/StatsController.js:64-69 | the i-th pushed config is the display field of the i-th own key and its value |
| StatsController.NullBecomesEmptyContainer | app/view/desktop/tabpanel/browser/details/stats/StatsController.js:21-22 | a null property value (`typeof` "object") becomes an empty container |
| StatsController.CollectItems | app/view/desktop/tabpanel/browser/details/stats/StatsController.js:13-29 | the loop of `loadDetails` pushes `DetailConfig` for each own key of the general info, in order |
| StatsController.DetailConfigsAt | app/view/desktop/tabpanel/browser/details/stats/StatsController.js:18-29 | the i-th item is the config of the i-th own key and its value |
| StatsController.Flattening | app/view/desktop/tabpanel/browser/details/stats/StatsController.js:18-29 | one item per own key: objects and null become containers and lose their label, every other value becomes a display field labelled by its key |
| StatsController.StringInfoFields | app/view/desktop/tabpanel/browser/details/stats/StatsController.js:18-20 | a string general info yields one display field per character, labelled by its index |
| StatsController.ObjectInfoFields | app/view/desktop/tabpanel/browser/details/stats/StatsController.js:18-29 | an object general info yields, in order, the config of each own property and its value |
| StatsController.MissingNameGivesNoItems | app/view/desktop/tabpanel/browser/details/stats/StatsController.js:40-46 | a dot-free `refName` that names no property of the details object gives `undefined`, and the panel gets no items |
| StatsController.LoadDetails | app/view/desktop/tabpanel/browser/details/stats/StatsController.js:12-35 | the view's items become the flattened general info; the title becomes `refName` exactly when the view has a header |
| JsValues.IndexOf | app/view/desktop/tabpanel/browser/details/stats/StatsController.js:40 | `indexOf` gives the first position of the character, or -1 when the string has none |
| JsValues.JoinSplit | app/view/desktop/tabpanel/browser/details/stats/StatsController.js:41 | joining the pieces of `split('.')` with '.' gives back the `refName` |
| JsValues.SplitPieces | app/view/desktop/tabpanel/browser/details/stats/StatsController.js:41 | no piece contains a dot, and there is one more piece than dots |
| JsValues.StringIndexGet | app/view/desktop/tabpanel/browser/details/stats/StatsController.js:20 | reading a string at an index key gives that character |
| JsValues.ObjectFieldGet | app/view/desktop/tabpanel/browser/details/stats/StatsController.js:20 | reading an own property of an object gives its value |
| JsValues.MissingPropertyGet | app/view/desktop/tabpanel/browser/details/stats/StatsController.js:44 | reading a name that is not an own property gives `undefined` |
| JsValues.OwnKeysDistinct | app/view/desktop/tabpanel/browser/details/stats/StatsController.js:18-19 | the own keys `for … in` visits are distinct, for objects and for strings |
| ScrollerPolicy.WheelDelta | app/view/desktop/basic/scroller/ScrollerController.js:453-469 | the delta comes from `deltaY` (times 20 in line mode, direction kept), else from `wheelDelta`, else from `detail` times 20, and is NaN exactly when the event has none of them |
| ScrollerPolicy.LineModeBoost | app/view/desktop/basic/scroller/ScrollerController.js:453-457 | 3 lines become 60 pixels; 3 pixels stay 3 |
| ScrollerPolicy.DefaultDelta | app/view/desktop/basic/scroller/ScrollerController.js:379-386 | a non-zero step replaces the delta by ±step; a zero step keeps the delta |
| ScrollerPolicy.DefaultDeltaDirection | app/view/desktop/basic/scroller/ScrollerController.js:379-386 | with a positive step the result is negative exactly when the delta is |
| ScrollerPolicy.PageDelta | app/view/desktop/basic/scroller/ScrollerController.js:519-521 | page down is +step, every other key −step (±1 with no step) |
| ScrollerPolicy.PageKeysOpposite | app/view/desktop/basic/scroller/ScrollerController.js:519-521 | page up (33) and page down (34) move by the same amount in opposite directions |
| ScrollerPolicy.SpotlightStep | app/view/desktop/basic/scroller/ScrollerController.js:584-591 | the lazy step 50 while a view is spotlighted, the default step 100 otherwise |
| ScrollerPolicy.Filter | app/view/desktop/basic/scroller/ScrollerController.js:487-501 | with a clock that does not run backwards, applied exactly when the end time is set, non-zero and more than 4 ms before the `start` reading; an unset end time becomes the `init` reading, an applied scroll moves it to the `done` reading taken after the scroll, otherwise it stays |
| ScrollerPolicy.AppliedTimesAreSpaced | app/view/desktop/basic/scroller/ScrollerController.js:487-501 | with positive, non-decreasing clock readings, every applied wheel event starts more than 4 ms after the previous applied one was done, hence also after it started |
| ScrollerPolicy.FirstEventOnlyInitialises | app/view/desktop/basic/scroller/ScrollerController.js:487-501 | the first event of a fresh controller only sets the end time: events 2 ms apart apply nothing, 10 ms apart one |
| ScrollerPolicy.PairRun | app/view/desktop/basic/scroller/ScrollerController.js:487-501 | two events in a row are filtered one after the other |
| ScrollerPolicy.GapCountsFromDone | app/view/desktop/basic/scroller/ScrollerController.js:494-500 | the gap counts from when the previous applied scroll was done: an event 6 ms after the previous start is dropped when that scroll took 3 ms, and applied when it took none |
| ScrollerPolicy.IsBodyMasked | app/view/desktop/basic/scroller/ScrollerController.js:278-286 | the body counts as masked when it carries a mask, or otherwise when the active window is modal |
| ScrollerPolicy.IsScrollAllowed | app/view/desktop/basic/scroller/ScrollerController.js:354-371 | an unmasked body always allows scrolling; with no spotlight view, scrolling is allowed exactly when the body is not masked |
| ScrollerPolicy.ScrollAllowedUnderMask | app/view/desktop/basic/scroller/ScrollerController.js:354-371 | under a mask, scrolling is allowed exactly when the spotlight view's height, `y + height` or `x + height` exceeds the body height |
| ScrollerPolicy.IsElementInView | app/view/desktop/basic/scroller/ScrollerController.js:294-314 | an element in view is visible; for an upward wheel event its `getTop()` reading exceeds the margin, otherwise its bottom, shifted by the margin, lies above the view height |
| ScrollerPolicy.PreventScroll | app/view/desktop/basic/scroller/ScrollerController.js:609-618 | only a wheel or mousewheel event with a visible spotlight view is prevented |
| ScrollerPolicy.PreventScrollByDirection | app/view/desktop/basic/scroller/ScrollerController.js:294-314 | over a visible spotlight view, a downward wheel event is prevented exactly when the view's shifted bottom is above the view height, an upward one exactly when its top is below the margin |
| ScrollerPolicy.MinScrollbarWidth | app/view/desktop/basic/scroller/ScrollerController.js:837-844 | the minimum width is 18 on Firefox for Windows, 16 on other Firefox, 18 on IE and Edge, and 14 elsewhere |
| ScrollerPolicy.ScrollbarWidth | app/view/desktop/basic/scroller/ScrollerController.js:831-848 | the width is the larger of the measured width and the browser minimum |
| ScrollerController.InnerHeight | app/view/desktop/basic/scroller/ScrollerController.js:410-422 | the height of the container's first child, 0 when it has none |
| ScrollerController.GetMaxHeight | app/view/desktop/basic/scroller/ScrollerController.js:394-403 | the comparator is true exactly when a second container is given and is strictly taller than the first |
| ScrollerController.GetMaxHeightIsStrict | app/view/desktop/basic/scroller/ScrollerController.js:394-403 | the comparator is never true in both directions, nor for equal heights |
| ScrollerController.ScrollHeight | app/view/desktop/basic/scroller/ScrollerController.js:428-439 | the scroll height is the inner height of the picked container, or 0 when none is picked |
| ScrollerController.DoScroll | app/view/desktop/basic/scroller/ScrollerController.js:198-230 | the container is scrolled to `top` with the command its capability calls for: `scrollTo({y: top}, animate)` on the framework scrollable, the DOM `scrollTo` at left 0 and `top`, or `scrollTop = top`; animation only when `animate` is set, and the configured behaviour is sent exactly while animating without a spotlight view |
| ScrollerController.UniformSizingProperties | app/view/desktop/basic/scroller/ScrollerController.js:880-897 | sizing gives every container the same height and the modifier class, keeps everything else, and is idempotent |
| ScrollerController.ScrollEachKeepsSizing | app/view/desktop/basic/scroller/ScrollerController.js:750-758 | scrolling every container leaves each at the target and keeps their sizing |
| ScrollerController.CountdownOrder | app/view/desktop/basic/scroller/ScrollerController.js:753-758 | one flush scrolls each index exactly once, to the same target, from the last index down |
| ScrollerController.MaxScrollableTopIsMaximum | app/view/desktop/basic/scroller/ScrollerController.js:239-263 | the scan finds the largest scroll offset among containers that have a framework scrollable, and finds nothing when none has one |
| ScrollerController.Scroller.constructor | app/view/desktop/basic/scroller/ScrollerController.js:14-85 | the initial configuration: behaviour "smooth", class "fss-scroll-modifier", step 100, no scroll element, margin 0, empty sync list, not registered |
| ScrollerController.Scroller.Register | app/view/desktop/basic/scroller/ScrollerController.js:624-640 | the first call stores whether there is a scroll element and the margin, and stores the sync list sized to the scroll element's height measured at this call; later calls change nothing |
| ScrollerController.Scroller.SetScrollMargin | app/view/desktop/basic/scroller/ScrollerController.js:821-826 | a falsy margin is stored as 0 |
| ScrollerController.Scroller.SetSyncList | app/view/desktop/basic/scroller/ScrollerController.js:856-862 | a falsy list is stored as empty, and the stored list is sized to the scroll element's current height |
| ScrollerController.Scroller.SyncLayouts | app/view/desktop/basic/scroller/ScrollerController.js:876-897 | with a scroll element every container is resized to the element's height measured at this call, less the margin, and tagged, establishing `Valid` for that height; without one nothing changes |
| ScrollerController.Scroller.SetLayout | app/view/desktop/basic/scroller/ScrollerController.js:796-813 | syncs the layouts to the scroll element's height measured at this call; once registered and rendered it sizes the view to that height and the scroller, corrects the scroll and stops the layout task; it throws when there is no scroll element at that point |
| ScrollerController.Scroller.ResizeView | app/view/desktop/basic/scroller/ScrollerController.js:800-812 | view height = the scroll element's height measured at this call; scroller height = scroll height + margin; the layout task is stopped |
| ScrollerController.Scroller.FixLayoutScroll | app/view/desktop/basic/scroller/ScrollerController.js:239-272 | re-syncs every container to the scroller's position exactly when the largest scrollable offset exists and differs from it; otherwise nothing changes |
| ScrollerController.Scroller.OnLayout | app/view/desktop/basic/scroller/ScrollerController.js:509-512 | restarts the layout task |
| ScrollerController.Scroller.LayoutTaskTick | app/view/desktop/basic/scroller/ScrollerController.js:173-176 | a run of the layout task does exactly what `setLayout` does (`LayoutDone`) with the scroll element's height measured at that run, while the task is pending, and nothing otherwise |
| ScrollerController.LayoutFollowsViewport | app/view/desktop/basic/scroller/ScrollerController.js:173-176 | after a viewport resize, one run of the restarted layout task sizes the view and every synced container to the new scroll element height |
| ScrollerController.Scroller.ScrollTo | app/view/desktop/basic/scroller/ScrollerController.js:739-745 | overwrites the pending target and restarts the scroll task |
| ScrollerController.Scroller.ScrollAllTo | app/view/desktop/basic/scroller/ScrollerController.js:750-762 | with a pending target, every container is scrolled to its `y` from the last index down; the target is cleared and the task stopped either way; sizing is kept |
| ScrollerController.Scroller.ScrollTaskTick | app/view/desktop/basic/scroller/ScrollerController.js:178-181 | a run of the scroll task flushes the pending target only while the task is pending |
| ScrollerController.LastRequestWins | app/view/desktop/basic/scroller/ScrollerController.js:739-762 | two requests before the task runs produce one flush, to the later target |
| ScrollerController.Scroller.OnRealScroll | app/view/desktop/basic/scroller/ScrollerController.js:546-554 | fires `e_scroll` with the top, scrolls every container to it at once and switches animation off |
| ScrollerController.Scroller.OnScroll | app/view/desktop/basic/scroller/ScrollerController.js:562-577 | re-syncs at once when not animating; while animating, switches animation on and replaces the one deferred re-sync |
| ScrollerController.Scroller.DeferredScrollFires | app/view/desktop/basic/scroller/ScrollerController.js:570-576 | the deferred re-sync runs `onRealScroll` with the last scheduled top |
| ScrollerController.Scroller.OnMouseWheel | app/view/desktop/basic/scroller/ScrollerController.js:445-504 | judged against the spotlight view's geometry measured at this event: when allowed, not over another scrollable element and not prevented, sets animation (off on a Mac) and the scroll time, and hands the wheel delta to the scroller exactly when the inertial filter applies it, with the end time read after the scroll; otherwise nothing changes |
| ScrollerController.Scroller.OnPageMove | app/view/desktop/basic/scroller/ScrollerController.js:519-539 | unless the target is an input or sits in another scrollable element, turns animation on and scrolls by ±step |
| ScrollerController.Scroller.OnSpotlight | app/view/desktop/basic/scroller/ScrollerController.js:584-591 | the step becomes lazy (50) with a view and the default (100) without, and whether a view is spotlighted is remembered |
| ScrollerController.Scroller.SetScrollWidth | app/view/desktop/basic/scroller/ScrollerController.js:831-848 | the view width is the measured scrollbar width raised to the browser minimum |

## Left out

- `onMouseWheel`'s `e_hideTooltip` event, `onLayout`'s `lastLayoutCmp`, `registerScrollEvents`, `syncListPagingEvents`, the paging plugins, `preventNativeScroll` and the key map of `init` are not modelled. They only wire listeners or fire events that nothing here reads.
- `isHoverElScrollable`, `scrollIntoView` and `scrollBy` are not modelled. The hover test walks the DOM and enters as the `hoverScrollable` input.
- `scrollToTop` and `scrollToBottom` are not modelled. `scrollToBottom` reads a `height` variable that is never declared, so calling it would throw a ReferenceError.
- Two calls into framework code are inputs, because their code is not part of this model:
  - `ScrollerController.ScrollHeight`: `Ext.Array.max` with the `getMaxHeight` comparator is an index `pick`. The model does not claim that the picked container is the tallest. Because the comparator means "second is taller", it would need `Ext.Array.max`'s code to tell.
  - `ScrollerController.Scroller.OnMouseWheel`: the `onDomScroll` call is left out. The scroll event that follows a `scrollBy` is modelled separately as `OnScroll`.
- Timers are not modelled as time. The task runners are pending flags, and `Ext.defer` is a single slot (`deferredScroll`) that a later call replaces. A task that keeps running every 100 ms is modelled as one tick at a time.
- Numbers are integers. `Math.round` of a fractional wheel delta and pixel fractions are not modelled. NaN appears only as `Delta.NotANumber` for an event without any delta field.
- A container is a value held in the controller's list. Aliasing between list entries, or between a container and the scroll element, is not modelled.
- ScrollerController.ScrollHeight, ScrollerController.Scroller.FixLayoutScroll: the containers' inner heights and scroll offsets are fields of the container records, which change only through the controller's own commands. Content that grows, or a container the user scrolls directly, between two calls cannot be expressed; the scroll element's height, by contrast, is measured at every call.
- A raw DOM element in the sync list is not modelled. `doScroll` tolerates one, but `fixLayoutScroll` calls `getScrollable()` on every entry. Every container here is a framework component, and `Capability` says how it scrolls.
- `ScrollerController.Scroller.SetLayout`: the throw for a missing scroll element is the `threw` result. What a caller does after the throw is not modelled. A non-rendered view is the `rendered` input.
- In `StatsController`, properties from prototypes of numbers, booleans and strings are not modelled (except a string's `length` and its indices). Nor are arrays' `length`, or `refName`/`details` that are not strings or JSON-like values.
- JsValues.Get: names inherited from `Object.prototype` (`constructor`, `toString`, `hasOwnProperty`, …) read as `undefined` on an object. In the source they give functions, so a `refName` such as "constructor.name" reaches the string "Object"; functions are not modelled as values.
- JsValues.OwnKeys: an `Obj` value may list a name twice, which no JavaScript object does. Results about such values say nothing about the source; the per-property results (`ObjectInfoFields`, `OwnKeysDistinct`) assume `DistinctKeys`.
- JsValues.OwnKeys: an object whose own property `hasOwnProperty` is not a function hides the method that `loadDetails` (StatsController.js:19) and `getItemsConfig` (:65) call, so the source throws a TypeError there before `setItems` runs. The model treats `hasOwnProperty` as the built-in test and returns the items; `CollectItems`, `LoadDetails` and `GetItemsConfig` do not model the throw.
- JsValues.IndexOf: strings are sequences of Unicode scalar values, not UTF-16 code units, so positions differ from the source for characters outside the Basic Multilingual Plane. The dots `split` looks for are found the same way.
- StatsController.StringInfoFields: one field per Unicode scalar value; for characters outside the Basic Multilingual Plane the source visits two code units, and so makes two fields, each holding half of a surrogate pair.
- ScrollerController.Scroller.SetScrollWidth: `Ext.getScrollbarSize(true)` is framework code that is not part of this model; the model takes its result as a number `measured`. If it returned a `{width, height}` object, the comparison with the minimum would be false and the width always the browser minimum.

## Notes on the source

- The documentation of `getMaxHeight` says it is true when the first container is bigger. The code returns `height1 < height2`, which is true when the second is bigger (`GetMaxHeight`).
- The guard `if (reference.indexOf('.'))` is true for a `refName` without any dot, because -1 is truthy. It is false only when the name starts with a dot. So a plain name is still looked up once (`NoDotLooksUpOnce`), and a leading dot skips the walk (`LeadingDotReturnsDetails`).
- The inertial filter drops the first wheel event of a fresh controller, because that event only sets `scrollEndTime`. Two events 2 ms apart therefore scroll nothing, not once. The model follows the code (`FirstEventOnlyInitialises`). A clock reading of exactly 0 would also count as unset, which is why `AppliedTimesAreSpaced` assumes positive times. The end time of an applied scroll is read after `scrollBy` and its scroll listeners ran, so the 4 ms gap counts from the end of the previous handling (`GapCountsFromDone`).
- `isScrollAllowed` compares `getX() + height` with the body height. It uses the view's height where a width would be expected, and the model keeps this.
