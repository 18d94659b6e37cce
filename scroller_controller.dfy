/**
 * The scroller controller keeps a list of "synced" containers at the height and
 * scroll offset of one scroller view. Containers are records held by the
 * controller: the controller sizes them, tags them with a CSS modifier class and
 * scrolls them, and reads back the heights and positions it needs.
 *
 * The two task runners of the controller are modelled as pending flags:
 * `restart` sets the flag, `stop` clears it, and a tick runs the task's action
 * only when its flag is set. The browser's measurements and the framework's
 * scroller are arguments of the methods that read them.
 */
module ScrollerController {
  import opened Optional
  import opened ScrollerPolicy

  /** How a container can be scrolled: by its framework scrollable, by the DOM `scrollTo`, or only by assigning `scrollTop`. */
  datatype Capability = FrameworkScrollable | DomScrollTo | ScrollTopOnly

  /** The last scroll command a container received from `doScroll`. */
  datatype ScrollCommand =
    | NoCommand
      /** `scrollable.scrollTo({y: top}, animate)` */
    | ScrollableScrollTo(y: int, animate: bool)
      /** `dom.scrollTo({left: 0, behavior?, top})` */
    | DomScroll(left: int, top: int, behavior: Option<string>)
      /** `dom.scrollTop = top` */
    | ScrollTopAssigned(top: int)

  /**
   * A synced container: the height of its first child element (if it has one),
   * how it scrolls, its scroll offset, its own height and its CSS classes.
   */
  datatype Container = Container(
    innerHeight: Option<nat>,
    capability: Capability,
    scrollTop: int,
    height: int,
    cls: set<string>,
    lastCommand: ScrollCommand)

  /** The pending scroll target; `x` is absent when the request came from a real scroll. */
  datatype ScrollArgs = ScrollArgs(x: Option<int>, y: int)

  /**
   * What `register` is given; a falsy field is `None`. Of the scroll element
   * only its presence is kept: its height is measured whenever it is read.
   */
  datatype RegisterConfig = RegisterConfig(
    hasScrollEl: bool,
    scrollMargin: Option<int>,
    syncList: Option<seq<Container>>)

  /**
   * The browser state a wheel event is judged against, measured when the event
   * arrives; `spotlightBox` is the spotlight view's current geometry, read only
   * while a spotlight view is shown.
   */
  datatype WheelEnv = WheelEnv(
    spotlightBox: ElementBox,
    bodyMasked: bool,
    activeWindowModal: bool,
    bodyHeight: nat,
    hoverScrollable: bool,
    isMac: bool,
    scrollerDom: bool)

  /** The target of a page key event: its node name and whether it sits in another scrollable element. */
  datatype KeyTarget = KeyTarget(nodeName: string, hoverScrollable: bool)

  // ---------------------------------------------------------------------------
  // Heights

  /** `getInnerHeight`: the height of the container's first child, 0 when there is none. */
  function InnerHeight(c: Container): (h: nat)
    ensures c.innerHeight.Some? ==> h == c.innerHeight.value
    ensures c.innerHeight.None? ==> h == 0
  {
    if c.innerHeight.Some? then c.innerHeight.value else 0
  }

  /**
   * `getMaxHeight(container1, container2)`: compares inner heights with `<`, a
   * missing second container counting 0. Although documented as "true if the
   * first is bigger", it is true exactly when the SECOND container is strictly
   * taller.
   */
  function GetMaxHeight(c1: Container, c2: Option<Container>): (r: bool)
    ensures r <==> c2.Some? && InnerHeight(c2.value) > InnerHeight(c1)
  {
    var height2 := if c2.Some? then InnerHeight(c2.value) else 0;
    InnerHeight(c1) < height2
  }

  /** As a comparator `getMaxHeight` is a strict order: never true in both directions, nor for equal heights. */
  lemma GetMaxHeightIsStrict(c1: Container, c2: Container)
    ensures GetMaxHeight(c1, Some(c2)) ==> !GetMaxHeight(c2, Some(c1))
    ensures InnerHeight(c1) == InnerHeight(c2) ==> !GetMaxHeight(c1, Some(c2))
  {
  }

  /**
   * `getScrollHeight`: the inner height of the entry the library's `max`
   * selects, given as `pick` (its choice is not modelled), or 0 when it selects
   * nothing.
   */
  function ScrollHeight(syncList: seq<Container>, pick: Option<nat>): (h: nat)
    requires pick.Some? ==> pick.value < |syncList|
    ensures pick.None? ==> h == 0
    ensures pick.Some? ==> h == InnerHeight(syncList[pick.value])
    ensures h == 0 || exists i :: 0 <= i < |syncList| && h == InnerHeight(syncList[i])
  {
    if pick.Some? then InnerHeight(syncList[pick.value]) else 0
  }

  // ---------------------------------------------------------------------------
  // Sizing

  /** One step of `syncLayouts`: `setHeight(height)` and `addCls(cls)`. */
  function Resize(c: Container, height: int, cls: string): Container {
    c.(height := height, cls := c.cls + {cls})
  }

  /** `syncLayouts` applied to a whole list. */
  function UniformSizing(syncList: seq<Container>, height: int, cls: string): seq<Container> {
    seq(|syncList|, i requires 0 <= i < |syncList| => Resize(syncList[i], height, cls))
  }

  /** Every container has the given height and carries the given class. */
  ghost predicate Sized(syncList: seq<Container>, height: int, cls: string) {
    forall i :: 0 <= i < |syncList| ==> syncList[i].height == height && cls in syncList[i].cls
  }

  /** Sizing makes every container uniform, touches nothing else, and a second sizing changes nothing. */
  lemma UniformSizingProperties(syncList: seq<Container>, height: int, cls: string)
    ensures |UniformSizing(syncList, height, cls)| == |syncList|
    ensures Sized(UniformSizing(syncList, height, cls), height, cls)
    ensures forall i :: 0 <= i < |syncList| ==>
              var r := UniformSizing(syncList, height, cls)[i];
              r.scrollTop == syncList[i].scrollTop && r.capability == syncList[i].capability &&
              r.innerHeight == syncList[i].innerHeight && r.cls == syncList[i].cls + {cls} &&
              r.lastCommand == syncList[i].lastCommand
    ensures UniformSizing(UniformSizing(syncList, height, cls), height, cls) == UniformSizing(syncList, height, cls)
  {
    var once := UniformSizing(syncList, height, cls);
    var twice := UniformSizing(once, height, cls);
    assert forall i :: 0 <= i < |syncList| ==> twice[i] == once[i];
  }

  // ---------------------------------------------------------------------------
  // Scrolling

  /** Whether a scroll command asks for an animated scroll. */
  predicate Animated(cmd: ScrollCommand) {
    match cmd
    case ScrollableScrollTo(_, animate) => animate
    case DomScroll(_, _, behavior) => behavior.Some?
    case _ => false
  }

  /** Whether a command is the kind a container of this capability receives. */
  predicate CommandFits(cap: Capability, cmd: ScrollCommand) {
    match cap
    case FrameworkScrollable => cmd.ScrollableScrollTo?
    case DomScrollTo => cmd.DomScroll?
    case ScrollTopOnly => cmd.ScrollTopAssigned?
  }

  /**
   * `doScroll(0, top, container)`: scroll through the framework scrollable if
   * there is one, else through the DOM `scrollTo` with `left: 0` and the
   * animation behaviour only while animating without a spotlight view, else by
   * assigning `scrollTop`.
   */
  function DoScroll(c: Container, top: int, animate: bool, spotlightActive: bool, behavior: string): (r: Container)
    ensures r.scrollTop == top
    ensures r == c.(scrollTop := top, lastCommand := r.lastCommand)
    ensures CommandFits(c.capability, r.lastCommand)
    ensures Animated(r.lastCommand) ==> animate
    ensures r.lastCommand.ScrollableScrollTo? ==> r.lastCommand == ScrollableScrollTo(top, animate)
    ensures r.lastCommand.ScrollTopAssigned? ==> r.lastCommand == ScrollTopAssigned(top)
    ensures r.lastCommand.DomScroll? ==>
              r.lastCommand.left == 0 && r.lastCommand.top == top &&
              (r.lastCommand.behavior.Some? <==> animate && !spotlightActive)
    ensures r.lastCommand.DomScroll? && r.lastCommand.behavior.Some? ==> r.lastCommand.behavior.value == behavior
  {
    match c.capability
    case FrameworkScrollable =>
      c.(scrollTop := top, lastCommand := ScrollableScrollTo(top, animate))
    case DomScrollTo =>
      var behaviorCfg := if animate && !spotlightActive then Some(behavior) else None;
      c.(scrollTop := top, lastCommand := DomScroll(0, top, behaviorCfg))
    case ScrollTopOnly =>
      c.(scrollTop := top, lastCommand := ScrollTopAssigned(top))
  }

  /** Every container of the list scrolled to `top`. */
  function ScrollEach(syncList: seq<Container>, top: int, animate: bool, spotlightActive: bool, behavior: string): seq<Container> {
    seq(|syncList|, i requires 0 <= i < |syncList| => DoScroll(syncList[i], top, animate, spotlightActive, behavior))
  }

  /** Scrolling every container leaves each at `top` and does not undo their sizing. */
  lemma ScrollEachKeepsSizing(syncList: seq<Container>, top: int, animate: bool, spotlightActive: bool, behavior: string,
                              height: int, cls: string)
    requires Sized(syncList, height, cls)
    ensures |ScrollEach(syncList, top, animate, spotlightActive, behavior)| == |syncList|
    ensures Sized(ScrollEach(syncList, top, animate, spotlightActive, behavior), height, cls)
    ensures forall i :: 0 <= i < |syncList| ==> ScrollEach(syncList, top, animate, spotlightActive, behavior)[i].scrollTop == top
  {
  }

  /** The `doScroll` calls of one flush, as (index, top): from the last index down to 0. */
  function Countdown(n: nat, top: int): seq<(nat, int)> {
    if n == 0 then [] else [(n - 1, top)] + Countdown(n - 1, top)
  }

  /** A flush of n containers scrolls each index exactly once, to the same `top`, last index first. */
  lemma {:induction false} CountdownOrder(n: nat, top: int)
    ensures |Countdown(n, top)| == n
    ensures forall k :: 0 <= k < n ==> Countdown(n, top)[k] == (n - 1 - k, top)
  {
    if n > 0 {
      CountdownOrder(n - 1, top);
    }
  }

  /** One step of the running maximum in `fixLayoutScroll`: only framework scrollables count. */
  function TakeTop(c: Container, scrollTop: Option<int>): Option<int> {
    if c.capability == FrameworkScrollable then
      if scrollTop.Some? then Some(if scrollTop.value < c.scrollTop then c.scrollTop else scrollTop.value)
      else Some(c.scrollTop)
    else scrollTop
  }

  /** The running maximum of `fixLayoutScroll` after scanning the whole list. */
  function MaxScrollableTop(syncList: seq<Container>): Option<int> {
    if syncList == [] then None else TakeTop(syncList[0], MaxScrollableTop(syncList[1..]))
  }

  /**
   * The scan finds the largest scroll offset among the containers that have a
   * framework scrollable, and finds nothing when none has one.
   */
  lemma {:induction false} MaxScrollableTopIsMaximum(syncList: seq<Container>)
    ensures MaxScrollableTop(syncList).None? <==>
              forall i :: 0 <= i < |syncList| ==> syncList[i].capability != FrameworkScrollable
    ensures MaxScrollableTop(syncList).Some? ==>
              (exists i :: 0 <= i < |syncList| && syncList[i].capability == FrameworkScrollable &&
                           syncList[i].scrollTop == MaxScrollableTop(syncList).value) &&
              (forall i :: 0 <= i < |syncList| && syncList[i].capability == FrameworkScrollable ==>
                           syncList[i].scrollTop <= MaxScrollableTop(syncList).value)
  {
    if syncList != [] {
      var rest := syncList[1..];
      MaxScrollableTopIsMaximum(rest);
      assert forall i :: 1 <= i < |syncList| ==> syncList[i] == rest[i - 1];
      var m := MaxScrollableTop(rest);
      if m.Some? {
        var j :| 0 <= j < |rest| && rest[j].capability == FrameworkScrollable && rest[j].scrollTop == m.value;
        assert syncList[j + 1] == rest[j];
      }
    }
  }

  // ---------------------------------------------------------------------------
  // The controller

  class Scroller {
    /** Configuration: the native scroll behaviour and the CSS class given to synced containers. */
    const behavior: string
    const clsModifier: string

    var scrollStep: int
    /** Whether a scroll element is set; its height is measured again by every method that reads it. */
    var hasScrollEl: bool
    var scrollMargin: int
    var syncList: seq<Container>

    var registered: bool
    var animate: bool
    var scrollArgs: Option<ScrollArgs>
    /** The scroll and layout task runners: `true` while restarted and not yet stopped. */
    var scrollTaskPending: bool
    var layoutTaskPending: bool
    var scrollTime: Option<int>
    var scrollEndTime: Option<int>
    /** Whether a spotlight view is shown; its geometry is measured again at every wheel event. */
    var hasSpotlight: bool
    /** The scroll top of the `onRealScroll` call deferred while the scroller animates. */
    var deferredScroll: Option<int>

    /** The view's height and width, and the height of its inner `scroller` component. */
    var viewHeight: int
    var viewWidth: int
    var scrollerHeight: int
    /** The deltas handed to the view scroller's `scrollBy`, in order. */
    var scrollRequests: seq<Delta>
    /** The tops carried by the `e_scroll` events the view fired, in order. */
    var scrollEvents: seq<int>
    /** Every `doScroll` on a synced container, as (index, top), in order. */
    ghost var scrollLog: seq<(nat, int)>
    /** The container height the last `syncLayouts` with a scroll element applied. */
    ghost var sizedHeight: int

    /**
     * Once there is a scroll element, every synced container has the height the
     * last sync applied (the scroll element's height then, less the margin) and
     * the modifier class.
     */
    ghost predicate Valid()
      reads this
    {
      hasScrollEl ==> Sized(syncList, sizedHeight, clsModifier)
    }

    /** The list as `syncLayouts` leaves it when the scroll element measures `scrollElHeight`. */
    ghost function Laid(list: seq<Container>, scrollElHeight: int): (laid: seq<Container>)
      reads this
      ensures |laid| == |list|
    {
      if hasScrollEl then UniformSizing(list, scrollElHeight - scrollMargin, clsModifier) else list
    }

    /** The state `onRealScroll(top)` leaves, from the given synced list, animation flag, events and log. */
    ghost predicate Resynced(list: seq<Container>, top: int, animate0: bool, events: seq<int>, log: seq<(nat, int)>)
      reads this
    {
      && syncList == ScrollEach(list, top, animate0, hasSpotlight, behavior)
      && scrollLog == log + Countdown(|list|, top)
      && scrollEvents == events + [top]
      && scrollArgs.None? && !scrollTaskPending && !animate
    }

    constructor (viewHeight: int, viewWidth: int, scrollerHeight: int)
      ensures Valid()
      ensures behavior == "smooth" && clsModifier == "fss-scroll-modifier"
      ensures scrollStep == ScrollDefaultStep && !hasScrollEl && scrollMargin == 0 && syncList == []
      ensures !registered && !animate && scrollArgs.None? && !scrollTaskPending && !layoutTaskPending
      ensures scrollTime.None? && scrollEndTime.None? && !hasSpotlight && deferredScroll.None?
      ensures this.viewHeight == viewHeight && this.viewWidth == viewWidth && this.scrollerHeight == scrollerHeight
      ensures scrollRequests == [] && scrollEvents == [] && scrollLog == []
    {
      behavior := "smooth";
      clsModifier := "fss-scroll-modifier";
      scrollStep := ScrollDefaultStep;
      hasScrollEl := false;
      scrollMargin := 0;
      syncList := [];
      registered := false;
      animate := false;
      scrollArgs := None;
      scrollTaskPending := false;
      layoutTaskPending := false;
      scrollTime := None;
      scrollEndTime := None;
      hasSpotlight := false;
      deferredScroll := None;
      this.viewHeight := viewHeight;
      this.viewWidth := viewWidth;
      this.scrollerHeight := scrollerHeight;
      scrollRequests := [];
      scrollEvents := [];
      scrollLog := [];
      sizedHeight := 0;
    }

    // -------------------------------------------------------------------------
    // Registration and sizing

    /**
     * `register(config)` with the scroll element measuring `scrollElHeight`: the
     * first call takes the scroll element, the margin and the sync list and sizes
     * the containers; every later call does nothing.
     */
    method Register(config: RegisterConfig, scrollElHeight: nat)
      requires Valid()
      modifies this`hasScrollEl, this`scrollMargin, this`syncList, this`registered, this`sizedHeight
      ensures Valid()
      ensures old(registered) ==> unchanged(this)
      ensures !old(registered) ==>
                && registered
                && hasScrollEl == config.hasScrollEl
                && scrollMargin == (if config.scrollMargin.Some? && config.scrollMargin.value != 0
                                    then config.scrollMargin.value else 0)
                && syncList == Laid(config.syncList.GetOr([]), scrollElHeight)
                && (hasScrollEl ==> sizedHeight == scrollElHeight - scrollMargin)
    {
      if !registered {
        hasScrollEl := config.hasScrollEl;
        SetScrollMargin(config.scrollMargin);
        SetSyncList(config.syncList, scrollElHeight);
        // `registerScrollEvents()` only wires listeners; `setLayout()` only
        // re-syncs the layouts here, because `registered` is still false.
        SyncLayouts(scrollElHeight);
        registered := true;
      }
    }

    /** `setScrollMargin(margin)`: a falsy margin is stored as 0. */
    method SetScrollMargin(margin: Option<int>)
      modifies this`scrollMargin
      ensures scrollMargin == if margin.Some? && margin.value != 0 then margin.value else 0
    {
      scrollMargin := if margin.Some? && margin.value != 0 then margin.value else 0;
    }

    /** `setSyncList(list)`: a falsy list is stored as `[]`, then the layouts are synced. */
    method SetSyncList(list: Option<seq<Container>>, scrollElHeight: nat)
      modifies this`syncList, this`sizedHeight
      ensures Valid()
      ensures syncList == Laid(list.GetOr([]), scrollElHeight)
      ensures hasScrollEl ==> sizedHeight == scrollElHeight - scrollMargin
    {
      syncList := if list.Some? then list.value else [];
      SyncLayouts(scrollElHeight);
    }

    /**
     * `syncLayouts`: with a scroll element, measured now at `scrollElHeight`,
     * every container gets that height less the margin and the modifier class,
     * from the last index down; without one nothing happens.
     */
    method SyncLayouts(scrollElHeight: nat)
      modifies this`syncList, this`sizedHeight
      ensures Valid()
      ensures syncList == Laid(old(syncList), scrollElHeight)
      ensures hasScrollEl ==> sizedHeight == scrollElHeight - scrollMargin
      ensures !hasScrollEl ==> sizedHeight == old(sizedHeight)
    {
      if hasScrollEl {
        var scrollHeight := scrollElHeight - scrollMargin;
        var index := |syncList|;
        ghost var list0 := syncList;
        while index > 0
          invariant 0 <= index <= |list0| == |syncList|
          invariant forall i :: 0 <= i < index ==> syncList[i] == list0[i]
          invariant forall i :: index <= i < |list0| ==> syncList[i] == Resize(list0[i], scrollHeight, clsModifier)
        {
          index := index - 1;
          syncList := syncList[index := Resize(syncList[index], scrollHeight, clsModifier)];
        }
        UniformSizingProperties(list0, scrollHeight, clsModifier);
        sizedHeight := scrollHeight;
      }
    }

    /**
     * What one `setLayout` run did, from the state before it, with the scroll
     * element measuring `scrollElHeight`: the layouts are synced to that height;
     * once registered and rendered, the view and its scroller are sized, the
     * scroll is corrected and the layout task stopped, or, with no scroll
     * element, the call threw.
     */
    twostate predicate LayoutDone(rendered: bool, scrollElHeight: nat, pick: Option<nat>, viewScrollTop: int, threw: bool)
      reads this
    {
      && (threw <==> registered && rendered && !hasScrollEl)
      && (hasScrollEl ==> sizedHeight == scrollElHeight - scrollMargin)
      && (!(registered && rendered && hasScrollEl) ==>
            && syncList == Laid(old(syncList), scrollElHeight)
            && unchanged(this`viewHeight, this`scrollerHeight, this`layoutTaskPending, this`scrollArgs,
                         this`scrollTaskPending, this`animate, this`scrollEvents, this`scrollLog))
      && (registered && rendered && hasScrollEl ==>
            var laid := Laid(old(syncList), scrollElHeight);
            var top := MaxScrollableTop(laid);
            && viewHeight == scrollElHeight
            && scrollerHeight == ScrollHeight(laid, if pick.Some? && pick.value < |laid| then pick else None) + scrollMargin
            && !layoutTaskPending
            && (if top.Some? && top.value != viewScrollTop
                then Resynced(laid, viewScrollTop, old(animate), old(scrollEvents), old(scrollLog))
                else syncList == laid &&
                     unchanged(this`scrollArgs, this`scrollTaskPending, this`animate, this`scrollEvents, this`scrollLog)))
    }

    /**
     * `setLayout`, with the scroll element measuring `scrollElHeight` at this
     * call: syncs the layouts; once registered and rendered, sets the
     * view to the scroll element's height and the inner scroller to the picked
     * scroll height plus the margin, corrects the scroll position and stops the
     * layout task. With no scroll element at that point the source throws
     * (`getScrollEl().getHeight()` on `undefined`), reported as `threw`.
     */
    method SetLayout(rendered: bool, scrollElHeight: nat, pick: Option<nat>, viewScrollTop: int) returns (threw: bool)
      requires Valid()
      requires pick.Some? ==> pick.value < |syncList|
      modifies this`syncList, this`viewHeight, this`scrollerHeight, this`layoutTaskPending,
               this`scrollArgs, this`scrollTaskPending, this`animate, this`scrollEvents, this`scrollLog, this`sizedHeight
      ensures Valid()
      ensures LayoutDone(rendered, scrollElHeight, pick, viewScrollTop, threw)
    {
      threw := false;
      SyncLayouts(scrollElHeight);
      if registered && rendered {
        if !hasScrollEl {
          threw := true;
          return;
        }
        ResizeView(scrollElHeight, pick, viewScrollTop);
      }
    }

    /** The part of `setLayout` that runs once registered and rendered, with a scroll element. */
    method ResizeView(scrollElHeight: nat, pick: Option<nat>, viewScrollTop: int)
      requires Valid() && hasScrollEl
      requires pick.Some? ==> pick.value < |syncList|
      modifies this`syncList, this`viewHeight, this`scrollerHeight, this`layoutTaskPending,
               this`scrollArgs, this`scrollTaskPending, this`animate, this`scrollEvents, this`scrollLog
      ensures Valid()
      ensures viewHeight == scrollElHeight
      ensures scrollerHeight == ScrollHeight(old(syncList), pick) + scrollMargin
      ensures !layoutTaskPending
      ensures var top := MaxScrollableTop(old(syncList));
              if top.Some? && top.value != viewScrollTop
              then Resynced(old(syncList), viewScrollTop, old(animate), old(scrollEvents), old(scrollLog))
              else syncList == old(syncList) &&
                   unchanged(this`scrollArgs, this`scrollTaskPending, this`animate, this`scrollEvents, this`scrollLog)
    {
      var offsetHeight := ScrollHeight(syncList, pick);
      viewHeight := scrollElHeight;
      scrollerHeight := offsetHeight + scrollMargin;
      FixLayoutScroll(viewScrollTop);
      layoutTaskPending := false;
    }

    /**
     * `fixLayoutScroll`: finds the largest scroll offset among the containers
     * with a framework scrollable (scanning from the last) and, when there is one
     * and it differs from the view scroller's position, re-syncs every container
     * to that position.
     */
    method FixLayoutScroll(scrollerTop: int)
      requires Valid()
      modifies this`syncList, this`scrollArgs, this`scrollTaskPending, this`animate, this`scrollEvents, this`scrollLog
      ensures Valid()
      ensures var top := MaxScrollableTop(old(syncList));
              if top.Some? && top.value != scrollerTop
              then Resynced(old(syncList), scrollerTop, old(animate), old(scrollEvents), old(scrollLog))
              else unchanged(this)
    {
      var scrollTop: Option<int> := None;
      var index := |syncList|;
      while index > 0
        invariant 0 <= index <= |syncList|
        invariant scrollTop == MaxScrollableTop(syncList[index..])
      {
        index := index - 1;
        var container := syncList[index];
        assert syncList[index..][1..] == syncList[index + 1..];
        if container.capability == FrameworkScrollable {
          var top := container.scrollTop;
          if scrollTop.Some? {
            scrollTop := Some(if scrollTop.value < top then top else scrollTop.value);
          } else {
            scrollTop := Some(top);
          }
        }
      }
      assert syncList[0..] == syncList;
      if scrollTop.Some? && scrollTop.value != scrollerTop {
        OnRealScroll(scrollerTop);
      }
    }

    /** The layout task: `onLayout` restarts it, and a tick runs `setLayout` while it is pending. */
    method OnLayout()
      modifies this`layoutTaskPending
      ensures layoutTaskPending
    {
      layoutTaskPending := true;
    }

    method LayoutTaskTick(rendered: bool, scrollElHeight: nat, pick: Option<nat>, viewScrollTop: int) returns (threw: bool)
      requires Valid()
      requires pick.Some? ==> pick.value < |syncList|
      modifies this`syncList, this`viewHeight, this`scrollerHeight, this`layoutTaskPending,
               this`scrollArgs, this`scrollTaskPending, this`animate, this`scrollEvents, this`scrollLog, this`sizedHeight
      ensures Valid()
      ensures !old(layoutTaskPending) ==> unchanged(this) && !threw
      ensures old(layoutTaskPending) ==> LayoutDone(rendered, scrollElHeight, pick, viewScrollTop, threw)
    {
      threw := false;
      if layoutTaskPending {
        threw := SetLayout(rendered, scrollElHeight, pick, viewScrollTop);
      }
    }

    // -------------------------------------------------------------------------
    // Scroll coalescing

    /** `scrollTo(left, top)`: overwrite the pending target (the latest request wins) and restart the scroll task. */
    method ScrollTo(left: int, top: int)
      modifies this`scrollArgs, this`scrollTaskPending
      ensures scrollArgs == Some(ScrollArgs(Some(left), top))
      ensures scrollTaskPending
    {
      scrollArgs := Some(ScrollArgs(Some(left), top));
      scrollTaskPending := true;
    }

    /**
     * `scrollAllTo`: with a pending target, scroll every container to its `y`,
     * last index first; with none, touch nothing. Either way the target is
     * cleared and the scroll task stopped.
     */
    method ScrollAllTo()
      requires Valid()
      modifies this`syncList, this`scrollArgs, this`scrollTaskPending, this`scrollLog
      ensures Valid()
      ensures old(scrollArgs).Some? ==>
                && syncList == ScrollEach(old(syncList), old(scrollArgs).value.y, animate, hasSpotlight, behavior)
                && scrollLog == old(scrollLog) + Countdown(|old(syncList)|, old(scrollArgs).value.y)
      ensures old(scrollArgs).None? ==> syncList == old(syncList) && scrollLog == old(scrollLog)
      ensures scrollArgs.None? && !scrollTaskPending
    {
      ghost var list0 := syncList;
      ghost var y := if scrollArgs.Some? then scrollArgs.value.y else 0;
      CountdownOrder(|list0|, y);
      var index := |syncList|;
      while index > 0 && scrollArgs.Some?
        invariant 0 <= index <= |list0| == |syncList|
        invariant scrollArgs == old(scrollArgs)
        invariant scrollArgs.None? ==> index == |list0|
        invariant forall i :: 0 <= i < index ==> syncList[i] == list0[i]
        invariant forall i :: index <= i < |list0| ==>
                    syncList[i] == DoScroll(list0[i], y, animate, hasSpotlight, behavior)
        invariant scrollLog == old(scrollLog) + Countdown(|list0|, y)[..|list0| - index]
      {
        index := index - 1;
        syncList := syncList[index := DoScroll(syncList[index], scrollArgs.value.y, animate, hasSpotlight, behavior)];
        scrollLog := scrollLog + [(index, scrollArgs.value.y)];
        assert Countdown(|list0|, y)[..|list0| - index] == Countdown(|list0|, y)[..|list0| - index - 1] + [(index, y)];
      }
      assert Countdown(|list0|, y)[..|list0|] == Countdown(|list0|, y);
      scrollArgs := None;
      scrollTaskPending := false;
      if hasScrollEl {
        ScrollEachKeepsSizing(list0, y, animate, hasSpotlight, behavior, sizedHeight, clsModifier);
      }
    }

    /** The scroll task: a tick runs `scrollAllTo` while the task is pending. */
    method ScrollTaskTick()
      requires Valid()
      modifies this`syncList, this`scrollArgs, this`scrollTaskPending, this`scrollLog
      ensures Valid()
      ensures !old(scrollTaskPending) ==> unchanged(this)
      ensures old(scrollTaskPending) ==> scrollArgs.None? && !scrollTaskPending
      ensures old(scrollTaskPending) && old(scrollArgs).Some? ==>
                && syncList == ScrollEach(old(syncList), old(scrollArgs).value.y, animate, hasSpotlight, behavior)
                && scrollLog == old(scrollLog) + Countdown(|old(syncList)|, old(scrollArgs).value.y)
    {
      if scrollTaskPending {
        ScrollAllTo();
      }
    }

    /**
     * `onRealScroll(scroller, top)`: fire `e_scroll` with `top`, make `{y: top}`
     * the pending target, flush it at once and switch animation off.
     */
    method OnRealScroll(top: int)
      requires Valid()
      modifies this`syncList, this`scrollArgs, this`scrollTaskPending, this`animate, this`scrollEvents, this`scrollLog
      ensures Valid()
      ensures Resynced(old(syncList), top, old(animate), old(scrollEvents), old(scrollLog))
    {
      scrollEvents := scrollEvents + [top];
      scrollArgs := Some(ScrollArgs(None, top));
      ScrollAllTo();
      animate := false;
    }

    /**
     * `onScroll(scroller, left, top)`: re-sync at once unless the scroller is
     * animating; while it animates, switch animation on and (re)schedule one
     * deferred re-sync, replacing any earlier one.
     */
    method OnScroll(top: int, isAnimating: bool)
      requires Valid()
      modifies this`syncList, this`scrollArgs, this`scrollTaskPending, this`animate, this`scrollEvents,
               this`scrollLog, this`deferredScroll
      ensures Valid()
      ensures !isAnimating ==>
                Resynced(old(syncList), top, old(animate), old(scrollEvents), old(scrollLog)) &&
                deferredScroll == old(deferredScroll)
      ensures isAnimating ==>
                animate && deferredScroll == Some(top) &&
                unchanged(this`syncList, this`scrollArgs, this`scrollTaskPending, this`scrollEvents, this`scrollLog)
    {
      if !isAnimating {
        OnRealScroll(top);
      } else {
        animate := true;
        deferredScroll := Some(top);
      }
    }

    /** The deferred re-sync runs `onRealScroll` with the last scheduled top. */
    method DeferredScrollFires()
      requires Valid()
      modifies this`syncList, this`scrollArgs, this`scrollTaskPending, this`animate, this`scrollEvents,
               this`scrollLog, this`deferredScroll
      ensures Valid()
      ensures old(deferredScroll).None? ==> unchanged(this)
      ensures old(deferredScroll).Some? ==>
                deferredScroll.None? &&
                Resynced(old(syncList), old(deferredScroll).value, old(animate), old(scrollEvents), old(scrollLog))
    {
      if deferredScroll.Some? {
        var top := deferredScroll.value;
        deferredScroll := None;
        OnRealScroll(top);
      }
    }

    // -------------------------------------------------------------------------
    // Input

    /** The spotlight view as the wheel handler measures it: `None` when none is shown. */
    ghost function Spotlight(env: WheelEnv): Option<ElementBox>
      reads this
    {
      if hasSpotlight then Some(env.spotlightBox) else None
    }

    /** Whether a wheel event gets past the permission checks to the inertial filter. */
    ghost predicate WheelReachesFilter(e: WheelEvent, env: WheelEnv)
      reads this
    {
      && IsScrollAllowed(IsBodyMasked(env.bodyMasked, env.activeWindowModal), Spotlight(env), env.bodyHeight)
      && !env.hoverScrollable
      && !PreventScroll(e, Spotlight(env), scrollMargin, viewHeight)
      && env.scrollerDom
    }

    /**
     * `onMouseWheel(e)` with the clock readings `clock`: when scrolling is
     * allowed, no other scrollable element is hovered and the event is not
     * prevented, animation is set (off on a Mac), `scrollTime` becomes
     * `clock.start`, and the inertial filter decides whether the wheel delta is
     * handed to the view scroller.
     */
    method OnMouseWheel(e: WheelEvent, env: WheelEnv, clock: Clock)
      modifies this`animate, this`scrollTime, this`scrollEndTime, this`scrollRequests
      ensures WheelReachesFilter(e, env) ==>
                var step := Filter(old(scrollEndTime), clock);
                && animate == !env.isMac
                && scrollTime == Some(clock.start)
                && scrollEndTime == Some(step.endTime)
                && scrollRequests == old(scrollRequests) + (if step.applied then [WheelDelta(e)] else [])
      ensures !WheelReachesFilter(e, env) ==> unchanged(this)
    {
      var deltaY := WheelDelta(e);
      var spotlightView := if hasSpotlight then Some(env.spotlightBox) else None;
      if IsScrollAllowed(IsBodyMasked(env.bodyMasked, env.activeWindowModal), spotlightView, env.bodyHeight) {
        var isHoveringScrollableEl := env.hoverScrollable;
        var isPrevented := PreventScroll(e, spotlightView, scrollMargin, viewHeight);
        if !isHoveringScrollableEl && !isPrevented && env.scrollerDom {
          animate := !env.isMac;
          scrollTime := Some(clock.start);
          if EndTimeUnset(scrollEndTime) {
            scrollEndTime := Some(clock.init);
          }
          if scrollTime.value - scrollEndTime.value > InertiaGap {
            scrollRequests := scrollRequests + [deltaY];
            scrollEndTime := Some(clock.done);
          }
        }
      }
    }

    /**
     * `onPageMove(key, e)`: page down scrolls one step down, page up one step up,
     * unless the event target is an input or sits in another scrollable element.
     */
    method OnPageMove(key: int, target: Option<KeyTarget>, scrollerDom: bool)
      modifies this`animate, this`scrollRequests
      ensures var targetScrollable := target.Some? && (target.value.nodeName == "INPUT" || target.value.hoverScrollable);
              if scrollerDom && !targetScrollable
              then animate && scrollRequests == old(scrollRequests) + [Pixels(PageDelta(key, scrollStep))]
              else unchanged(this)
    {
      var deltaY := if key == PageDownKey then 1 else -1;
      deltaY := DefaultDelta(scrollStep, deltaY);
      var isTargetScrollable := false;
      if target.Some? {
        var isInput := target.value.nodeName == "INPUT";
        isTargetScrollable := isInput || target.value.hoverScrollable;
      }
      if scrollerDom && !isTargetScrollable {
        animate := true;
        scrollRequests := scrollRequests + [Pixels(deltaY)];
      }
    }

    /** `onSpotlight(view)`: the lazy step while a view is spotlighted, the default step otherwise. */
    method OnSpotlight(hasView: bool)
      modifies this`scrollStep, this`hasSpotlight
      ensures scrollStep == SpotlightStep(hasView)
      ensures hasSpotlight == hasView
    {
      var step := ScrollDefaultStep;
      if hasView {
        step := ScrollLazyStep;
      }
      scrollStep := step;
      hasSpotlight := hasView;
    }

    /** `setScrollWidth`: the view is as wide as the measured scrollbar, but at least the browser's minimum. */
    method SetScrollWidth(measured: int, browser: Browser)
      modifies this`viewWidth
      ensures viewWidth == ScrollbarWidth(measured, browser)
      ensures viewWidth >= measured && viewWidth >= MinScrollbarWidth(browser)
    {
      var width := measured;
      var minWidth := MinScrollbarWidth(browser);
      width := if width >= minWidth then width else minWidth;
      viewWidth := width;
    }
  }

  /**
   * Two `scrollTo` requests before the scroll task runs lead to a single flush
   * to the later target: the earlier one is never applied.
   */
  method LastRequestWins(s: Scroller, first: int, second: int)
    requires s.Valid()
    modifies s
    ensures s.Valid()
    ensures s.syncList == ScrollEach(old(s.syncList), second, s.animate, s.hasSpotlight, s.behavior)
    ensures s.scrollLog == old(s.scrollLog) + Countdown(|old(s.syncList)|, second)
    ensures s.scrollArgs.None? && !s.scrollTaskPending
  {
    s.ScrollTo(0, first);
    s.ScrollTo(0, second);
    s.ScrollTaskTick();
  }

  /**
   * The layout task measures the scroll element on every run: after the
   * viewport changes size, one run sizes the view and every synced container
   * to the new height.
   */
  method LayoutFollowsViewport(s: Scroller, scrollElHeight: nat, viewScrollTop: int) returns (threw: bool)
    requires s.Valid() && s.registered && s.hasScrollEl
    modifies s
    ensures s.Valid()
    ensures !threw
    ensures s.viewHeight == scrollElHeight
    ensures Sized(s.syncList, scrollElHeight - s.scrollMargin, s.clsModifier)
  {
    s.OnLayout();
    threw := s.LayoutTaskTick(true, scrollElHeight, None, viewScrollTop);
  }
}
