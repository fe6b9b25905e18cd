/**
 * The dropdown menu's state machine: the open flag with its controlled mode,
 * the trigger that records the anchor, the layout pass that commits a
 * position, the scroll listener that follows or dismisses, and the close
 * events that reset everything kept per opening.
 *
 * One `Menu` object holds the state of the root (`internalOpen`, `anchorEl`)
 * together with that of its content panel (`position`, `scrollOffset`,
 * `isPositioned`, `renderKey`) and the values the scroll listener captured
 * when it was installed. Each method is one event handler followed by the
 * effects that the resulting render runs.
 */
module MenuEngine {
  import opened Wrappers
  import opened MenuGeometry

  /** An element that can become the anchor (the clicked trigger). */
  datatype Element = Element(id: nat)

  /** A scroll position or a scroll offset. */
  datatype Offset = Offset(x: real, y: real)

  /** Calls into the caller's code, in the order they are made:
      `onOpenChange(open)`, the trigger's own `onClick`, an item's own `onClick`. */
  datatype Notice = OpenChange(open: bool) | TriggerClicked | ItemClicked

  /** The first half of the layout pass: the reference point on the anchor,
      the transform-origin shift and the spacing, applied to `top` and `left`
      in turn. */
  method RawPlacement(anchorRect: Rect, contentRect: Rect, anchorOrigin: Origin, transformOrigin: Origin)
    returns (top: real, left: real)
    ensures Pos(top, left) == RawPosition(anchorRect, contentRect, anchorOrigin, transformOrigin)
  {
    top := 0.0;
    left := 0.0;
    match anchorOrigin.vertical {
      case Top => top := anchorRect.top;
      case VCenter => top := anchorRect.top + anchorRect.height / 2.0;
      case _ => top := anchorRect.Bottom();
    }
    match anchorOrigin.horizontal {
      case Left => left := anchorRect.left;
      case HCenter => left := anchorRect.left + anchorRect.width / 2.0;
      case _ => left := anchorRect.Right();
    }
    match transformOrigin.horizontal {
      case Left =>
      case HCenter => left := left - contentRect.width / 2.0;
      case _ => left := left - contentRect.width;
    }
    match transformOrigin.vertical {
      case Top =>
      case VCenter => top := top - contentRect.height / 2.0;
      case Bottom => top := top - contentRect.height;
      case OtherVertical =>
    }
    if anchorOrigin.vertical == Bottom {
      top := top + Spacing;
    } else if anchorOrigin.vertical == Top {
      top := top - Spacing;
    }
  }

  /** The second half of the layout pass, for one axis: with `side` the
      side of the anchor the panel opens on, `before` and `after` the flip
      targets, try the flip on an overflow at the far edge, then clamp. */
  method ConstrainAxis(x: real, size: real, limit: real, side: Side, before: real, after: real)
    returns (r: real)
    ensures r == FitAxis(x, size, limit, side, before, after)
  {
    r := x;
    var overflowEnd := x + size > limit - Padding;
    var overflowStart := x < Padding;
    if overflowEnd && side == EndSide {
      if before >= Padding {
        r := before;
      } else {
        r := Clamp(x, size, limit);
      }
    } else if overflowStart && side == StartSide {
      if after + size <= limit - Padding {
        r := after;
      } else {
        r := Clamp(x, size, limit);
      }
    } else if overflowEnd || overflowStart {
      r := Clamp(x, size, limit);
    }
  }

  class Menu {
    /** The `open` prop: `None` when the menu is uncontrolled. */
    var controlledOpen: Option<bool>
    var anchorOrigin: Origin
    var transformOrigin: Origin
    /** The `closeMenuScrollThreshold` prop. */
    var scrollThreshold: real

    var internalOpen: bool
    var anchor: Option<Element>

    var position: Option<Pos>
    var scrollOffset: Offset
    var isPositioned: bool
    var renderKey: nat

    /** Scroll position and threshold read when the scroll listener was installed. */
    var scrollOrigin: Offset
    var openThreshold: real

    var notices: seq<Notice>

    /** `open`: the prop when it is given, the internal state otherwise. */
    function IsOpen(): (r: bool)
      reads this`controlledOpen, this`internalOpen
      ensures controlledOpen.Some? ==> r == controlledOpen.value
      ensures controlledOpen.None? ==> r == internalOpen
    {
      if controlledOpen.Some? then controlledOpen.value else internalOpen
    }

    /** The per-opening state as the reset effect leaves it. */
    predicate IsReset()
      reads this`position, this`scrollOffset, this`renderKey, this`isPositioned
    {
      position.None? && scrollOffset == Offset(0.0, 0.0) && renderKey == 0 && !isPositioned
    }

    /** At most three retries are ever scheduled, a committed position and
        `isPositioned` go together, and a closed menu holds no per-opening
        state. */
    predicate Valid()
      reads this`controlledOpen, this`internalOpen
      reads this`position, this`scrollOffset, this`renderKey, this`isPositioned
    {
      renderKey <= MaxRetries
      && (isPositioned <==> position.Some?)
      && (!IsOpen() ==> IsReset())
    }

    /** Mounting the menu; missing props take their defaults. When the menu
        mounts open, the scroll listener reads `scroll` and the threshold. */
    constructor (open: Option<bool>, ao: Option<Origin>, to: Option<Origin>,
                 threshold: Option<real>, scroll: Offset)
      ensures Valid()
      ensures controlledOpen == open && !internalOpen && anchor.None?
      ensures anchorOrigin == ao.GetOr(DefaultAnchorOrigin)
      ensures transformOrigin == to.GetOr(DefaultTransformOrigin)
      ensures scrollThreshold == threshold.GetOr(DefaultScrollThreshold)
      ensures IsReset() && notices == []
      ensures scrollOrigin == scroll && openThreshold == scrollThreshold
    {
      controlledOpen := open;
      anchorOrigin := ao.GetOr(DefaultAnchorOrigin);
      transformOrigin := to.GetOr(DefaultTransformOrigin);
      scrollThreshold := threshold.GetOr(DefaultScrollThreshold);
      internalOpen := false;
      anchor := None;
      position := None;
      scrollOffset := Offset(0.0, 0.0);
      isPositioned := false;
      renderKey := 0;
      scrollOrigin := scroll;
      openThreshold := threshold.GetOr(DefaultScrollThreshold);
      notices := [];
    }

    /** The reset effect that runs when `open` turns false. */
    method ResetPerOpening()
      modifies this`position, this`scrollOffset, this`renderKey, this`isPositioned
      ensures IsReset()
    {
      isPositioned := false;
      position := None;
      scrollOffset := Offset(0.0, 0.0);
      renderKey := 0;
    }

    /** `setOpen(true)`: only an uncontrolled menu changes its own state;
        `onOpenChange(true)` is called either way. If the menu became open,
        the scroll listener is installed and reads the scroll position and
        the threshold. */
    method RequestOpen(scroll: Offset)
      requires Valid()
      modifies this`internalOpen, this`notices, this`scrollOrigin, this`openThreshold
      ensures Valid()
      ensures internalOpen == (if controlledOpen.None? then true else old(internalOpen))
      ensures notices == old(notices) + [OpenChange(true)]
      ensures !old(IsOpen()) && IsOpen() ==> scrollOrigin == scroll && openThreshold == scrollThreshold
      ensures !(!old(IsOpen()) && IsOpen()) ==>
        scrollOrigin == old(scrollOrigin) && openThreshold == old(openThreshold)
    {
      var wasOpen := IsOpen();
      if controlledOpen.None? {
        internalOpen := true;
      }
      notices := notices + [OpenChange(true)];
      if !wasOpen && IsOpen() {
        scrollOrigin := scroll;
        openThreshold := scrollThreshold;
      }
    }

    /** `setOpen(false)`: only an uncontrolled menu changes its own state;
        `onOpenChange(false)` is called either way. If the menu became
        closed, the per-opening state is reset. */
    method RequestClose()
      requires Valid()
      modifies this`internalOpen, this`notices
      modifies this`position, this`scrollOffset, this`renderKey, this`isPositioned
      ensures Valid()
      ensures internalOpen == (if controlledOpen.None? then false else old(internalOpen))
      ensures IsOpen() == (old(IsOpen()) && controlledOpen.Some?)
      ensures notices == old(notices) + [OpenChange(false)]
      ensures IsOpen() ==>
        position == old(position) && scrollOffset == old(scrollOffset)
        && renderKey == old(renderKey) && isPositioned == old(isPositioned)
    {
      var wasOpen := IsOpen();
      if controlledOpen.None? {
        internalOpen := false;
      }
      notices := notices + [OpenChange(false)];
      if wasOpen && !IsOpen() {
        ResetPerOpening();
      }
    }

    /** A click on the trigger: the clicked element becomes the anchor, the
        menu asks to open, then the trigger's own `onClick` runs. */
    method Trigger(el: Element, scroll: Offset)
      requires Valid()
      modifies this`anchor, this`internalOpen, this`notices, this`scrollOrigin, this`openThreshold
      ensures Valid()
      ensures anchor == Some(el)
      ensures internalOpen == (if controlledOpen.None? then true else old(internalOpen))
      ensures notices == old(notices) + [OpenChange(true), TriggerClicked]
      ensures !old(IsOpen()) && IsOpen() ==> scrollOrigin == scroll && openThreshold == scrollThreshold
      ensures !(!old(IsOpen()) && IsOpen()) ==>
        scrollOrigin == old(scrollOrigin) && openThreshold == old(openThreshold)
    {
      anchor := Some(el);
      RequestOpen(scroll);
      notices := notices + [TriggerClicked];
    }

    /** A click on an item: the item's own `onClick` runs, then the menu asks
        to close. */
    method ItemClick()
      requires Valid()
      modifies this`internalOpen, this`notices
      modifies this`position, this`scrollOffset, this`renderKey, this`isPositioned
      ensures Valid()
      ensures internalOpen == (if controlledOpen.None? then false else old(internalOpen))
      ensures notices == old(notices) + [ItemClicked, OpenChange(false)]
      ensures IsOpen() ==>
        position == old(position) && scrollOffset == old(scrollOffset)
        && renderKey == old(renderKey) && isPositioned == old(isPositioned)
    {
      notices := notices + [ItemClicked];
      RequestClose();
    }

    /** A document mousedown while open asks to close only when there is an
        anchor and the target is inside neither the panel nor the anchor. */
    method MouseDown(inPanel: bool, inAnchor: bool)
      requires Valid()
      modifies this`internalOpen, this`notices
      modifies this`position, this`scrollOffset, this`renderKey, this`isPositioned
      ensures Valid()
      ensures var closes := old(IsOpen()) && anchor.Some? && !inPanel && !inAnchor;
        && (closes ==> notices == old(notices) + [OpenChange(false)]
                       && internalOpen == (if controlledOpen.None? then false else old(internalOpen)))
        && (!closes ==> notices == old(notices) && internalOpen == old(internalOpen)
                        && position == old(position) && scrollOffset == old(scrollOffset)
                        && renderKey == old(renderKey) && isPositioned == old(isPositioned))
      ensures IsOpen() ==>
        position == old(position) && scrollOffset == old(scrollOffset)
        && renderKey == old(renderKey) && isPositioned == old(isPositioned)
    {
      if IsOpen() && anchor.Some? && !inPanel && !inAnchor {
        RequestClose();
      }
    }

    /** A keydown while open asks to close exactly for the Escape key. */
    method KeyDown(key: string)
      requires Valid()
      modifies this`internalOpen, this`notices
      modifies this`position, this`scrollOffset, this`renderKey, this`isPositioned
      ensures Valid()
      ensures var closes := old(IsOpen()) && key == "Escape";
        && (closes ==> notices == old(notices) + [OpenChange(false)]
                       && internalOpen == (if controlledOpen.None? then false else old(internalOpen)))
        && (!closes ==> notices == old(notices) && internalOpen == old(internalOpen)
                        && position == old(position) && scrollOffset == old(scrollOffset)
                        && renderKey == old(renderKey) && isPositioned == old(isPositioned))
      ensures IsOpen() ==>
        position == old(position) && scrollOffset == old(scrollOffset)
        && renderKey == old(renderKey) && isPositioned == old(isPositioned)
    {
      if IsOpen() && key == "Escape" {
        RequestClose();
      }
    }

    /** A click on the backdrop, which exists only while the menu is open. */
    method BackdropClick()
      requires Valid()
      modifies this`internalOpen, this`notices
      modifies this`position, this`scrollOffset, this`renderKey, this`isPositioned
      ensures Valid()
      ensures old(IsOpen()) ==>
        notices == old(notices) + [OpenChange(false)]
        && internalOpen == (if controlledOpen.None? then false else old(internalOpen))
      ensures !old(IsOpen()) ==> notices == old(notices) && internalOpen == old(internalOpen)
      ensures IsOpen() ==>
        position == old(position) && scrollOffset == old(scrollOffset)
        && renderKey == old(renderKey) && isPositioned == old(isPositioned)
    {
      if IsOpen() {
        RequestClose();
      }
    }

    /** The panel's `top`/`left` style: nothing while closed, the committed
        position moved by the scroll offset, or (0, 0) before any position
        is committed. */
    function Style(): (s: Option<Pos>)
      reads this
      ensures s.Some? <==> IsOpen()
      ensures IsOpen() && position.None? ==> s == Some(Pos(0.0, 0.0))
    {
      if !IsOpen() then None
      else if position.Some? then
        Some(Pos(position.value.top + scrollOffset.y, position.value.left + scrollOffset.x))
      else Some(Pos(0.0, 0.0))
    }

    /** A scroll event while open: measured from the position read at
        opening, a distance beyond the threshold read at opening asks to
        close; any other distance moves the panel against the scroll, so a
        positioned panel keeps its place on the page. */
    method Scroll(scroll: Offset)
      requires Valid()
      modifies this`internalOpen, this`notices
      modifies this`position, this`scrollOffset, this`renderKey, this`isPositioned
      ensures Valid()
      ensures var dx := scroll.x - scrollOrigin.x;
        var dy := scroll.y - scrollOrigin.y;
        && (!old(IsOpen()) ==> notices == old(notices) && internalOpen == old(internalOpen)
                               && scrollOffset == old(scrollOffset))
        && (old(IsOpen()) && ScrollExceeds(dx, dy, openThreshold) ==>
              notices == old(notices) + [OpenChange(false)]
              && internalOpen == (if controlledOpen.None? then false else old(internalOpen)))
        && (old(IsOpen()) && !ScrollExceeds(dx, dy, openThreshold) ==>
              notices == old(notices) && internalOpen == old(internalOpen)
              && scrollOffset == Offset(-dx, -dy) && position == old(position))
      ensures old(IsOpen()) && IsOpen() && position.Some? && notices == old(notices) ==>
        Style().value.top + scroll.y == position.value.top + scrollOrigin.y
        && Style().value.left + scroll.x == position.value.left + scrollOrigin.x
      ensures IsOpen() ==>
        position == old(position) && renderKey == old(renderKey) && isPositioned == old(isPositioned)
      ensures IsOpen() && ScrollExceeds(scroll.x - scrollOrigin.x, scroll.y - scrollOrigin.y, openThreshold) ==>
        scrollOffset == old(scrollOffset)
    {
      if IsOpen() {
        var deltaY := scroll.y - scrollOrigin.y;
        var deltaX := scroll.x - scrollOrigin.x;
        if ScrollExceeds(deltaX, deltaY, openThreshold) {
          RequestClose();
        } else {
          scrollOffset := Offset(-deltaX, -deltaY);
        }
      }
    }

    /** The layout pass, run while the menu is open and has an anchor. A
        panel measured with no width or no height commits nothing and asks
        for another pass while fewer than three were asked for; otherwise
        the placement is computed step by step and committed. */
    method Layout(anchorRect: Rect, contentRect: Rect, viewport: Viewport) returns (retry: bool)
      requires Valid()
      modifies this`position, this`isPositioned, this`renderKey
      ensures Valid()
      ensures !(IsOpen() && anchor.Some?) ==>
        !retry && position == old(position)
        && isPositioned == old(isPositioned) && renderKey == old(renderKey)
      ensures IsOpen() && anchor.Some? && (contentRect.width == 0.0 || contentRect.height == 0.0) ==>
        position == old(position) && isPositioned == old(isPositioned)
        && retry == (old(renderKey) < MaxRetries)
        && renderKey == (if retry then old(renderKey) + 1 else old(renderKey))
      ensures IsOpen() && anchor.Some? && contentRect.width != 0.0 && contentRect.height != 0.0 ==>
        !retry && renderKey == old(renderKey) && isPositioned
        && position == Some(Placement(anchorRect, contentRect, viewport, anchorOrigin, transformOrigin))
    {
      retry := false;
      if !(IsOpen() && anchor.Some?) {
        return;
      }
      if contentRect.width == 0.0 || contentRect.height == 0.0 {
        if renderKey < MaxRetries {
          renderKey := renderKey + 1;
          retry := true;
        }
        return;
      }

      var top, left := RawPlacement(anchorRect, contentRect, anchorOrigin, transformOrigin);
      top := ConstrainAxis(top, contentRect.height, viewport.height, VerticalSide(anchorOrigin.vertical),
                           anchorRect.top - contentRect.height - Spacing, anchorRect.Bottom() + Spacing);
      left := ConstrainAxis(left, contentRect.width, viewport.width, HorizontalSide(anchorOrigin.horizontal),
                            anchorRect.left - contentRect.width, anchorRect.Right());
      position := Some(Pos(top, left));
      isPositioned := true;
    }

    /** The caller re-renders with a new `open` prop. A change of the prop
        gives `setOpen` a new identity, so an open menu reinstalls its scroll
        listener (reading the scroll position and threshold again); a menu
        that became closed is reset. */
    method SetOpenProp(open: Option<bool>, scroll: Offset)
      requires Valid()
      modifies this`controlledOpen, this`scrollOrigin, this`openThreshold
      modifies this`position, this`scrollOffset, this`renderKey, this`isPositioned
      ensures Valid()
      ensures controlledOpen == open
      ensures IsOpen() && (!old(IsOpen()) || open != old(controlledOpen)) ==>
        scrollOrigin == scroll && openThreshold == scrollThreshold
      ensures !(IsOpen() && (!old(IsOpen()) || open != old(controlledOpen))) ==>
        scrollOrigin == old(scrollOrigin) && openThreshold == old(openThreshold)
      ensures IsOpen() ==>
        position == old(position) && scrollOffset == old(scrollOffset)
        && renderKey == old(renderKey) && isPositioned == old(isPositioned)
    {
      var wasOpen := IsOpen();
      var changed := open != controlledOpen;
      controlledOpen := open;
      if wasOpen && !IsOpen() {
        ResetPerOpening();
      }
      if IsOpen() && (!wasOpen || changed) {
        scrollOrigin := scroll;
        openThreshold := scrollThreshold;
      }
    }

    /** A new `closeMenuScrollThreshold` prop. The scroll listener does not
        depend on it, so an open menu keeps the threshold it read at opening. */
    method SetThresholdProp(threshold: Option<real>)
      modifies this`scrollThreshold
      ensures scrollThreshold == threshold.GetOr(DefaultScrollThreshold)
    {
      scrollThreshold := threshold.GetOr(DefaultScrollThreshold);
    }

    /** New origin props; they take effect at the next layout pass. */
    method SetOriginProps(ao: Option<Origin>, to: Option<Origin>)
      modifies this`anchorOrigin, this`transformOrigin
      ensures anchorOrigin == ao.GetOr(DefaultAnchorOrigin)
      ensures transformOrigin == to.GetOr(DefaultTransformOrigin)
    {
      anchorOrigin := ao.GetOr(DefaultAnchorOrigin);
      transformOrigin := to.GetOr(DefaultTransformOrigin);
    }
  }
}
