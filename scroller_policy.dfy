/**
 * The pure decisions of the scroller controller: how a wheel or page key
 * becomes a pixel delta, when a wheel scroll is let through, when scrolling is
 * allowed at all, and how wide the scrollbar is drawn. Everything the browser
 * measures (heights, positions, masks, the platform) is an argument here.
 */
module ScrollerPolicy {
  import opened Optional

  /** `mouseWheelSpeed`: the boost applied to line-based wheel deltas. */
  const MouseWheelSpeed: int := 20

  /** Wheel events less than this many milliseconds after the last applied one are dropped. */
  const InertiaGap: int := 4

  /** `scrollDefaultStep` and `scrollLazyStep` as configured. */
  const ScrollDefaultStep: int := 100
  const ScrollLazyStep: int := 50

  const PageUpKey: int := 33
  const PageDownKey: int := 34

  /** A vertical scroll amount handed to the view's scroller; `Math.round(undefined)` is NaN. */
  datatype Delta = Pixels(dy: int) | NotANumber

  /** The wheel fields of a browser event; `None` stands for a field that is `null` or `undefined`. */
  datatype WheelEvent = WheelEvent(
    eventType: string,
    deltaY: Option<int>,
    deltaMode: int,
    wheelDelta: Option<int>,
    detail: Option<int>)

  /**
   * What an element reports about itself: its page position (`getX()`,
   * `getY()`), the reading of `getTop()`, its height and its visibility.
   */
  datatype ElementBox = ElementBox(x: int, y: int, top: int, height: nat, visible: bool)

  /** The browser flags `setScrollWidth` looks at. */
  datatype Browser = Browser(isGecko: bool, isWindows: bool, isIE: bool, isEdge: bool)

  // ---------------------------------------------------------------------------
  // Deltas

  /**
   * The wheel delta of `onMouseWheel`: `deltaY` (boosted only in line mode,
   * `deltaMode === 1`), else the raw `wheelDelta`, else `detail` boosted; NaN
   * when the event carries none of them. The field a delta is read from decides
   * it: its direction is kept, and its size is multiplied by the wheel speed
   * exactly for line-mode `deltaY` and for `detail`. Deltas are whole pixels
   * here, so the rounding that follows changes nothing.
   */
  function WheelDelta(e: WheelEvent): (r: Delta)
    ensures e.deltaY.Some? ==>
      r.Pixels? &&
      (r.dy < 0 <==> e.deltaY.value < 0) &&
      (e.deltaMode == 1 ==> r.dy == 20 * e.deltaY.value) &&
      (e.deltaMode != 1 ==> r.dy == e.deltaY.value)
    ensures e.deltaY.None? && e.wheelDelta.Some? ==> r == Pixels(e.wheelDelta.value)
    ensures e.deltaY.None? && e.wheelDelta.None? && e.detail.Some? ==> r.Pixels? && r.dy == 20 * e.detail.value
    ensures r.NotANumber? <==> e.deltaY.None? && e.wheelDelta.None? && e.detail.None?
  {
    if e.deltaY.Some? then
      Pixels(if e.deltaMode == 1 then e.deltaY.value * MouseWheelSpeed else e.deltaY.value)
    else if e.wheelDelta.Some? then
      Pixels(e.wheelDelta.value)
    else if e.detail.Some? then
      Pixels(e.detail.value * MouseWheelSpeed)
    else
      NotANumber
  }

  /** A delta of 3 lines becomes 60 pixels; the same 3 in pixel mode stays 3. */
  lemma LineModeBoost()
    ensures WheelDelta(WheelEvent("wheel", Some(3), 1, None, None)) == Pixels(60)
    ensures WheelDelta(WheelEvent("wheel", Some(3), 0, None, None)) == Pixels(3)
  {
  }

  /**
   * `getDefaultDelta`: with a non-zero step the delta is replaced by the step,
   * negated for a negative delta; a zero step keeps the browser's delta.
   */
  function DefaultDelta(step: int, delta: int): (r: int)
    ensures step != 0 ==> r == step || r == -step
    ensures step == 0 ==> r == delta
  {
    if step != 0 then (if delta < 0 then -1 * step else step) else delta
  }

  /** With a positive step, the result has the step's size and points the way the delta does (0 counts as down). */
  lemma DefaultDeltaDirection(step: int, delta: int)
    requires step > 0
    ensures DefaultDelta(step, delta) < 0 <==> delta < 0
    ensures DefaultDelta(step, delta) == (if delta < 0 then -step else step)
  {
  }

  /** `onPageMove`: page down (34) is one unit down, every other key one unit up, then stepped. */
  function PageDelta(key: int, step: int): (r: int)
    ensures step != 0 ==> r == (if key == PageDownKey then step else -step)
    ensures step == 0 ==> r == (if key == PageDownKey then 1 else -1)
  {
    DefaultDelta(step, if key == PageDownKey then 1 else -1)
  }

  /** Page up moves exactly as far as page down, in the opposite direction. */
  lemma PageKeysOpposite(step: int)
    ensures PageDelta(PageUpKey, step) == -PageDelta(PageDownKey, step)
  {
  }

  /** `onSpotlight`: the lazy step while a spotlight view is shown, the default step otherwise. */
  function SpotlightStep(hasView: bool): (step: int)
    ensures hasView ==> step == 50
    ensures !hasView ==> step == 100
  {
    if hasView then ScrollLazyStep else ScrollDefaultStep
  }

  // ---------------------------------------------------------------------------
  // Inertial-scroll filter

  /**
   * The three clock readings of one wheel event that reaches the filter:
   * `start` for `scrollTime`, `init` for an unset end time, and `done` for the
   * end time of an applied scroll, read after the scroll and its listeners ran.
   */
  datatype Clock = Clock(start: int, init: int, done: int)

  /** A clock that does not run backwards during one event. */
  predicate Monotone(c: Clock) {
    c.start <= c.init <= c.done
  }

  /** All three readings of an event handled in no time. */
  function Instant(t: int): (c: Clock)
    ensures Monotone(c) && c.start == t && c.done == t
  {
    Clock(t, t, t)
  }

  /** The outcome of one wheel event that reached the filter: applied or not, and the new `scrollEndTime`. */
  datatype FilterStep = FilterStep(applied: bool, endTime: int)

  /** `!this.scrollEndTime`: unset, or the (falsy) time 0. */
  predicate EndTimeUnset(endTime: Option<int>) {
    endTime.None? || endTime.value == 0
  }

  /**
   * The millisecond-gap rule of `onMouseWheel`: an unset end time is first set
   * to the `init` reading; the scroll is applied only if more than 4 ms separate
   * `start` from the end time, and applying it moves the end time to the `done`
   * reading.
   */
  function Filter(endTime: Option<int>, c: Clock): (r: FilterStep)
    ensures Monotone(c) ==> (r.applied <==> !EndTimeUnset(endTime) && c.start - endTime.value > InertiaGap)
    ensures r.applied ==> r.endTime == c.done
    ensures Monotone(c) && EndTimeUnset(endTime) ==> r.endTime == c.init
    ensures !r.applied && !EndTimeUnset(endTime) ==> r.endTime == endTime.value
  {
    var end := if EndTimeUnset(endTime) then c.init else endTime.value;
    if c.start - end > InertiaGap then FilterStep(true, c.done) else FilterStep(false, end)
  }

  /** The wheel events, by their clock readings, that a run of the filter lets through. */
  function AppliedTimes(endTime: Option<int>, events: seq<Clock>): seq<Clock>
    decreases |events|
  {
    if events == [] then []
    else
      var r := Filter(endTime, events[0]);
      (if r.applied then [events[0]] else []) + AppliedTimes(Some(r.endTime), events[1..])
  }

  /**
   * With clock readings after time 0 that do not run backwards, every applied
   * event starts more than 4 ms after the end time the run started from, and
   * more than 4 ms after the previously applied event was done (so also after
   * it started).
   */
  lemma {:induction false} AppliedTimesAreSpaced(endTime: Option<int>, events: seq<Clock>)
    requires forall k :: 0 <= k < |events| ==> events[k].start > 0 && Monotone(events[k])
    ensures var a := AppliedTimes(endTime, events);
      |a| > 0 && !EndTimeUnset(endTime) ==> a[0].start - endTime.value > InertiaGap
    ensures var a := AppliedTimes(endTime, events);
      forall k :: 0 < k < |a| ==> a[k].start - a[k - 1].done > InertiaGap && a[k].start - a[k - 1].start > InertiaGap
    decreases |events|
  {
    if events != [] {
      var r := Filter(endTime, events[0]);
      assert !EndTimeUnset(Some(r.endTime));
      AppliedTimesAreSpaced(Some(r.endTime), events[1..]);
    }
  }

  /** A fresh controller drops its first wheel event, so two events 2 ms apart apply nothing, 10 ms apart one. */
  lemma FirstEventOnlyInitialises(t: int)
    requires t > 0
    ensures AppliedTimes(None, [Instant(t), Instant(t + 2)]) == []
    ensures AppliedTimes(None, [Instant(t), Instant(t + 10)]) == [Instant(t + 10)]
    ensures AppliedTimes(Some(t), [Instant(t + 10), Instant(t + 12)]) == [Instant(t + 10)]
    ensures AppliedTimes(Some(t), [Instant(t + 10), Instant(t + 20)]) == [Instant(t + 10), Instant(t + 20)]
  {
    assert Filter(None, Instant(t)) == FilterStep(false, t);
    PairRun(None, Instant(t), Instant(t + 2));
    PairRun(None, Instant(t), Instant(t + 10));
    PairRun(Some(t), Instant(t + 10), Instant(t + 12));
    PairRun(Some(t), Instant(t + 10), Instant(t + 20));
    assert [Instant(t + 10)] + [Instant(t + 20)] == [Instant(t + 10), Instant(t + 20)];
  }

  /**
   * The 4 ms gap is measured from when the last applied event was done: an
   * event 6 ms after the previous one started is dropped when handling the
   * previous one took 3 ms.
   */
  lemma GapCountsFromDone(t: int)
    requires t > 0
    ensures AppliedTimes(Some(t), [Clock(t + 10, t + 10, t + 13), Instant(t + 16)]) == [Clock(t + 10, t + 10, t + 13)]
    ensures AppliedTimes(Some(t), [Instant(t + 10), Instant(t + 16)]) == [Instant(t + 10), Instant(t + 16)]
  {
    PairRun(Some(t), Clock(t + 10, t + 10, t + 13), Instant(t + 16));
    PairRun(Some(t), Instant(t + 10), Instant(t + 16));
    assert [Instant(t + 10)] + [Instant(t + 16)] == [Instant(t + 10), Instant(t + 16)];
  }

  /** Two events in a row: each is applied or not by the filter in turn. */
  lemma PairRun(endTime: Option<int>, c1: Clock, c2: Clock)
    ensures AppliedTimes(endTime, [c1, c2]) ==
      var r1 := Filter(endTime, c1);
      var r2 := Filter(Some(r1.endTime), c2);
      (if r1.applied then [c1] else []) + (if r2.applied then [c2] else [])
  {
    var r1 := Filter(endTime, c1);
    var r2 := Filter(Some(r1.endTime), c2);
    assert [c1, c2][1..] == [c2];
    assert [c2][1..] == [];
    assert AppliedTimes(Some(r1.endTime), [c2]) == (if r2.applied then [c2] else []) + AppliedTimes(Some(r2.endTime), []);
  }

  // ---------------------------------------------------------------------------
  // Permission predicates

  /** `isBodyMasked`: the body carries a mask; only when it does not, a modal active window masks it too. */
  predicate IsBodyMasked(bodyMasked: bool, activeWindowModal: bool): (masked: bool)
    ensures bodyMasked ==> masked
    ensures !bodyMasked ==> (masked <==> activeWindowModal)
  {
    bodyMasked || activeWindowModal
  }

  /**
   * `isScrollAllowed`: allowed when the body is not masked, or when the
   * spotlight view reaches past the body's height: by its height, by its bottom
   * `getY() + height`, or by `getX() + height` (the horizontal test also adds
   * the height). Without a spotlight view the two position tests compare
   * `undefined` and are false.
   */
  predicate IsScrollAllowed(masked: bool, spotlightView: Option<ElementBox>, bodyHeight: nat): (allowed: bool)
    ensures !masked ==> allowed
    ensures spotlightView.None? ==> (allowed <==> !masked)
  {
    var h := if spotlightView.Some? then spotlightView.value.height else 0;
    !masked ||
    h > bodyHeight ||
    (spotlightView.Some? && spotlightView.value.y + h > bodyHeight) ||
    (spotlightView.Some? && spotlightView.value.x + h > bodyHeight)
  }

  /**
   * Under a mask, scrolling is allowed exactly when the spotlight view sticks
   * out: taller than the body, below it, or to the right by the quirky
   * `getX() + height` test.
   */
  lemma ScrollAllowedUnderMask(v: ElementBox, bodyHeight: nat)
    ensures IsScrollAllowed(true, Some(v), bodyHeight) <==>
              v.height > bodyHeight || v.y + v.height > bodyHeight || v.x + v.height > bodyHeight
  {
  }

  /** A wheel event that scrolls up: one with a negative `deltaY`. */
  predicate Upward(e: Option<WheelEvent>) {
    e.Some? && e.value.deltaY.Some? && e.value.deltaY.value < 0
  }

  /**
   * `isElementInView(el, e)`: the element, shifted down by the scroll margin
   * `pageTop`, must end above the view's height `pageBottom`; for an upward
   * wheel event the test is instead that its `getTop()` reading exceeds `pageTop`.
   * It must be visible too.
   */
  predicate IsElementInView(el: ElementBox, pageTop: int, pageBottom: int, e: Option<WheelEvent>): (inView: bool)
    ensures inView ==> el.visible
    ensures Upward(e) ==> (inView <==> el.visible && el.top > pageTop)
    ensures !Upward(e) ==> (inView <==> el.visible && el.y + pageTop + el.height < pageBottom)
  {
    var elementBottom := el.y + pageTop + el.height;
    var topDirection := e.Some? && e.value.deltaY.Some? && e.value.deltaY.value < 0;
    var inView := if topDirection then el.top > pageTop else elementBottom < pageBottom;
    el.visible && inView
  }

  /** `preventScroll(e)`: a wheel event is held back while a spotlight view is in view. */
  predicate PreventScroll(e: WheelEvent, spotlightView: Option<ElementBox>, pageTop: int, pageBottom: int): (prevented: bool)
    ensures prevented ==> spotlightView.Some? && spotlightView.value.visible
    ensures prevented ==> e.eventType == "wheel" || e.eventType == "mousewheel"
  {
    var wheelEvent := e.eventType == "wheel" || e.eventType == "mousewheel";
    wheelEvent && spotlightView.Some? && IsElementInView(spotlightView.value, pageTop, pageBottom, Some(e))
  }

  /**
   * For a wheel event over a visible spotlight view: scrolling down is held
   * back while the view's bottom, shifted by the margin, is above the view
   * height; scrolling up while its top is below the margin.
   */
  lemma PreventScrollByDirection(e: WheelEvent, v: ElementBox, pageTop: int, pageBottom: int)
    requires v.visible && (e.eventType == "wheel" || e.eventType == "mousewheel")
    ensures !Upward(Some(e)) ==> (PreventScroll(e, Some(v), pageTop, pageBottom) <==> v.y + pageTop + v.height < pageBottom)
    ensures Upward(Some(e)) ==> (PreventScroll(e, Some(v), pageTop, pageBottom) <==> v.top > pageTop)
  {
  }

  // ---------------------------------------------------------------------------
  // Scrollbar width

  /** The narrowest scrollbar `setScrollWidth` allows on each browser. */
  function MinScrollbarWidth(b: Browser): (w: int)
    ensures b.isGecko ==> w == (if b.isWindows then 18 else 16)
    ensures !b.isGecko && (b.isIE || b.isEdge) ==> w == 18
    ensures !b.isGecko && !b.isIE && !b.isEdge ==> w == 14
  {
    if b.isGecko then (if b.isWindows then 18 else 16)
    else if b.isIE || b.isEdge then 18
    else 14
  }

  /** `setScrollWidth`: the measured width, raised to the browser's minimum. */
  function ScrollbarWidth(measured: int, b: Browser): (w: int)
    ensures w >= measured && w >= MinScrollbarWidth(b)
    ensures w == measured || w == MinScrollbarWidth(b)
  {
    if measured >= MinScrollbarWidth(b) then measured else MinScrollbarWidth(b)
  }
}
