/**
 * The arithmetic of the dropdown menu: where the panel goes relative to its
 * anchor, how each axis is flipped or clamped to stay in the viewport, and
 * when scrolling away from the opening position dismisses the menu.
 * Coordinates are viewport pixels as `real`s.
 */
module MenuGeometry {

  /** The vertical part of an origin. `OtherVertical` stands for any value
      outside the declared union, which the switches send to their default
      branch (or, for the transform origin, to no branch at all). */
  datatype Vertical = Top | VCenter | Bottom | OtherVertical

  /** The horizontal part of an origin; `OtherHorizontal` as above. */
  datatype Horizontal = Left | HCenter | Right | OtherHorizontal

  datatype Origin = Origin(vertical: Vertical, horizontal: Horizontal)

  const DefaultAnchorOrigin: Origin := Origin(Bottom, Right)
  const DefaultTransformOrigin: Origin := Origin(Top, Right)

  /** Gap between anchor and panel on the vertical axis. */
  const Spacing: real := 4.0
  /** Minimum distance kept from the viewport edges. */
  const Padding: real := 8.0
  /** Number of zero-size layout retries. */
  const MaxRetries: nat := 3
  /** Scroll distance that closes the menu when the caller gives none. */
  const DefaultScrollThreshold: real := 50.0

  /** A bounding client rectangle. */
  datatype Rect = Rect(top: real, left: real, width: real, height: real) {
    function Bottom(): real { top + height }
    function Right(): real { left + width }
  }

  datatype Viewport = Viewport(width: real, height: real)

  /** A panel position: the top-left corner. */
  datatype Pos = Pos(top: real, left: real)

  /** Which side of the anchor the panel was asked to open on, along one
      axis: `EndSide` (below / to the right), `StartSide` (above / to the
      left) or neither (centred or undeclared). */
  datatype Side = StartSide | EndSide | NoSide

  // ---------------------------------------------------------------------
  // Raw placement
  // ---------------------------------------------------------------------

  /** The reference row on the anchor; anything but top and centre is the bottom. */
  function AnchorY(a: Rect, v: Vertical): real {
    match v
    case Top => a.top
    case VCenter => a.top + a.height / 2.0
    case _ => a.Bottom()
  }

  /** The reference column on the anchor; anything but left and centre is the right. */
  function AnchorX(a: Rect, h: Horizontal): real {
    match h
    case Left => a.left
    case HCenter => a.left + a.width / 2.0
    case _ => a.Right()
  }

  /** How far the panel moves up for its transform origin; an undeclared
      value matches no case and moves nothing. */
  function ShiftY(c: Rect, v: Vertical): real {
    match v
    case Top => 0.0
    case VCenter => c.height / 2.0
    case Bottom => c.height
    case OtherVertical => 0.0
  }

  /** How far the panel moves left for its transform origin; anything but
      left and centre counts as right. */
  function ShiftX(c: Rect, h: Horizontal): real {
    match h
    case Left => 0.0
    case HCenter => c.width / 2.0
    case _ => c.width
  }

  /** The spacing added for an anchor vertical of exactly bottom or top. */
  function SpacingShift(v: Vertical): real {
    match v
    case Bottom => Spacing
    case Top => -Spacing
    case _ => 0.0
  }

  /** The position before any viewport constraint. */
  function RawPosition(a: Rect, c: Rect, ao: Origin, to: Origin): (p: Pos)
    ensures ao == DefaultAnchorOrigin && to == DefaultTransformOrigin ==>
      p.top == a.Bottom() + Spacing && p.left + c.width == a.Right()
    ensures ao.vertical == Top && to.vertical == Bottom ==> p.top + c.height == a.top - Spacing
    ensures ao.horizontal == Left && to.horizontal == Left ==> p.left == a.left
  {
    Pos(AnchorY(a, ao.vertical) - ShiftY(c, to.vertical) + SpacingShift(ao.vertical),
        AnchorX(a, ao.horizontal) - ShiftX(c, to.horizontal))
  }

  /** Where along an edge a declared origin value sits, as a fraction of the size. */
  function VFraction(v: Vertical): real {
    match v
    case Top => 0.0
    case VCenter => 0.5
    case Bottom => 1.0
    case OtherVertical => 0.0
  }

  function HFraction(h: Horizontal): real {
    match h
    case Left => 0.0
    case HCenter => 0.5
    case Right => 1.0
    case OtherHorizontal => 0.0
  }

  predicate Declared(o: Origin) {
    o.vertical != OtherVertical && o.horizontal != OtherHorizontal
  }

  /** For declared origins, the raw position puts the panel's transform-origin
      point on the anchor's anchor-origin point, moved by the spacing on the
      vertical axis. */
  lemma RawAligns(a: Rect, c: Rect, ao: Origin, to: Origin)
    requires Declared(ao) && Declared(to)
    ensures var p := RawPosition(a, c, ao, to);
      p.top + VFraction(to.vertical) * c.height
        == a.top + VFraction(ao.vertical) * a.height + SpacingShift(ao.vertical)
      && p.left + HFraction(to.horizontal) * c.width
        == a.left + HFraction(ao.horizontal) * a.width
  {
  }

  /** Undeclared origin values: the anchor point falls back to bottom / right
      without spacing, the transform falls back to right horizontally and to
      no shift at all vertically. */
  lemma RawUndeclared(a: Rect, c: Rect, ao: Origin, to: Origin)
    ensures ao.vertical == OtherVertical && to.vertical == Top ==>
      RawPosition(a, c, ao, to).top == a.top + a.height
    ensures to.vertical == OtherVertical ==>
      RawPosition(a, c, ao, to).top == RawPosition(a, c, ao, to.(vertical := Top)).top
    ensures ao.horizontal == OtherHorizontal ==>
      RawPosition(a, c, ao, to).left == RawPosition(a, c, ao.(horizontal := Right), to).left
    ensures to.horizontal == OtherHorizontal ==>
      RawPosition(a, c, ao, to).left == RawPosition(a, c, ao, to.(horizontal := Right)).left
  {
  }

  /** With the default origins, an anchor at (100, 200) of size 50 x 20 and a
      150 x 80 panel start at top 124, left 100. */
  lemma DefaultExample()
    ensures RawPosition(Rect(100.0, 200.0, 50.0, 20.0), Rect(0.0, 0.0, 150.0, 80.0),
                        DefaultAnchorOrigin, DefaultTransformOrigin) == Pos(124.0, 100.0)
  {
  }

  // ---------------------------------------------------------------------
  // Viewport constraints
  // ---------------------------------------------------------------------

  /** `Math.max(padding, Math.min(x, limit - size - padding))`. */
  function Clamp(x: real, size: real, limit: real): (r: real)
    ensures r >= Padding
    ensures limit - size >= 2.0 * Padding ==> r <= limit - size - Padding
    ensures Padding <= x <= limit - size - Padding ==> r == x
    ensures r == x || r == Padding || r == limit - size - Padding
  {
    var m := if x < limit - size - Padding then x else limit - size - Padding;
    if Padding < m then m else Padding
  }

  predicate OverflowsEnd(x: real, size: real, limit: real) {
    x + size > limit - Padding
  }

  predicate OverflowsStart(x: real) {
    x < Padding
  }

  /** One axis of the overflow handling: a panel opened towards the end that
      overflows the end flips to `before` when that clears the start edge; a
      panel opened towards the start that overflows the start flips to
      `after` when that clears the end edge; any other overflow, and a
      refused flip, clamps. The result is the raw coordinate when nothing
      overflows, and otherwise one of the flip targets or the clamp. */
  function FitAxis(x: real, size: real, limit: real, side: Side, before: real, after: real): (r: real)
    ensures !OverflowsEnd(x, size, limit) && !OverflowsStart(x) ==> r == x
    ensures r == x || r == before || r == after || r == Clamp(x, size, limit)
  {
    if OverflowsEnd(x, size, limit) && side == EndSide then
      (if before >= Padding then before else Clamp(x, size, limit))
    else if OverflowsStart(x) && side == StartSide then
      (if after + size <= limit - Padding then after else Clamp(x, size, limit))
    else if OverflowsEnd(x, size, limit) || OverflowsStart(x) then
      Clamp(x, size, limit)
    else
      x
  }

  /** When the panel fits between the paddings, the result keeps the start
      padding unless it is the flip to `after`, and keeps the end padding
      unless it is the flip to `before`: an accepted flip is checked against
      one edge only. */
  lemma FitAxisBounds(x: real, size: real, limit: real, side: Side, before: real, after: real)
    requires limit - size >= 2.0 * Padding
    ensures var r := FitAxis(x, size, limit, side, before, after);
      (Padding <= r || (side == StartSide && r == after))
      && (r + size <= limit - Padding || (side == EndSide && r == before))
  {
  }

  /** An accepted flip can still leave the viewport: a 90-pixel panel in a
      100-pixel viewport flips above its anchor to 10 and ends at 100, past
      the end padding. */
  lemma AcceptedFlipMayOverflow()
    ensures var r := FitAxis(50.0, 90.0, 100.0, EndSide, 10.0, 0.0);
      r == 10.0 && r + 90.0 > 100.0 - Padding
  {
  }

  function VerticalSide(v: Vertical): Side {
    match v
    case Bottom => EndSide
    case Top => StartSide
    case _ => NoSide
  }

  function HorizontalSide(h: Horizontal): Side {
    match h
    case Right => EndSide
    case Left => StartSide
    case _ => NoSide
  }

  /** Flip target above the anchor, with spacing. */
  function FlipAbove(a: Rect, c: Rect): real { a.top - c.height - Spacing }
  /** Flip target below the anchor, with spacing. */
  function FlipBelow(a: Rect): real { a.Bottom() + Spacing }
  /** Flip target left of the anchor; no spacing on this axis. */
  function FlipLeft(a: Rect, c: Rect): real { a.left - c.width }
  /** Flip target right of the anchor; no spacing on this axis. */
  function FlipRight(a: Rect): real { a.Right() }

  /** The committed position: the raw position with each axis fitted on its own. */
  function Placement(a: Rect, c: Rect, vp: Viewport, ao: Origin, to: Origin): (p: Pos)
    ensures var raw := RawPosition(a, c, ao, to);
      p.top in {raw.top, FlipAbove(a, c), FlipBelow(a), Clamp(raw.top, c.height, vp.height)}
    ensures var raw := RawPosition(a, c, ao, to);
      p.left in {raw.left, FlipLeft(a, c), FlipRight(a), Clamp(raw.left, c.width, vp.width)}
  {
    var raw := RawPosition(a, c, ao, to);
    Pos(FitAxis(raw.top, c.height, vp.height, VerticalSide(ao.vertical), FlipAbove(a, c), FlipBelow(a)),
        FitAxis(raw.left, c.width, vp.width, HorizontalSide(ao.horizontal), FlipLeft(a, c), FlipRight(a)))
  }

  /** Nothing overflows: the raw position is committed unchanged. */
  lemma PlacementNoOverflow(a: Rect, c: Rect, vp: Viewport, ao: Origin, to: Origin)
    requires var raw := RawPosition(a, c, ao, to);
      Padding <= raw.top && raw.top + c.height <= vp.height - Padding
      && Padding <= raw.left && raw.left + c.width <= vp.width - Padding
    ensures Placement(a, c, vp, ao, to) == RawPosition(a, c, ao, to)
  {
  }

  /** Opened below, overflowing the bottom: flips to exactly `top - h - 4`
      when that is at least the padding, and clamps otherwise. */
  lemma PlacementFlipsUp(a: Rect, c: Rect, vp: Viewport, ao: Origin, to: Origin)
    requires ao.vertical == Bottom
    requires OverflowsEnd(RawPosition(a, c, ao, to).top, c.height, vp.height)
    ensures Placement(a, c, vp, ao, to).top ==
      if a.top - c.height - 4.0 >= Padding then a.top - c.height - 4.0
      else Clamp(RawPosition(a, c, ao, to).top, c.height, vp.height)
  {
  }

  /** Opened above, overflowing the top: flips to exactly `bottom + 4` when
      the panel then ends inside the padding, and clamps otherwise. */
  lemma PlacementFlipsDown(a: Rect, c: Rect, vp: Viewport, ao: Origin, to: Origin)
    requires ao.vertical == Top
    requires OverflowsStart(RawPosition(a, c, ao, to).top)
    ensures Placement(a, c, vp, ao, to).top ==
      if a.top + a.height + 4.0 + c.height <= vp.height - Padding then a.top + a.height + 4.0
      else Clamp(RawPosition(a, c, ao, to).top, c.height, vp.height)
  {
  }

  /** Opened to the right, overflowing the right edge: flips to exactly
      `left - w` when that is at least the padding. */
  lemma PlacementFlipsLeft(a: Rect, c: Rect, vp: Viewport, ao: Origin, to: Origin)
    requires ao.horizontal == Right
    requires OverflowsEnd(RawPosition(a, c, ao, to).left, c.width, vp.width)
    ensures Placement(a, c, vp, ao, to).left ==
      if a.left - c.width >= Padding then a.left - c.width
      else Clamp(RawPosition(a, c, ao, to).left, c.width, vp.width)
  {
  }

  /** Opened to the left, overflowing the left edge: flips to exactly the
      anchor's right edge when the panel then ends inside the padding. */
  lemma PlacementFlipsRight(a: Rect, c: Rect, vp: Viewport, ao: Origin, to: Origin)
    requires ao.horizontal == Left
    requires OverflowsStart(RawPosition(a, c, ao, to).left)
    ensures Placement(a, c, vp, ao, to).left ==
      if a.left + a.width + c.width <= vp.width - Padding then a.left + a.width
      else Clamp(RawPosition(a, c, ao, to).left, c.width, vp.width)
  {
  }

  /** A centred or undeclared anchor side never flips: any overflow clamps. */
  lemma PlacementCentredClamps(a: Rect, c: Rect, vp: Viewport, ao: Origin, to: Origin)
    requires ao.vertical == VCenter || ao.vertical == OtherVertical
    requires var raw := RawPosition(a, c, ao, to);
      OverflowsEnd(raw.top, c.height, vp.height) || OverflowsStart(raw.top)
    ensures Placement(a, c, vp, ao, to).top == Clamp(RawPosition(a, c, ao, to).top, c.height, vp.height)
  {
  }

  /** The committed top depends only on vertical inputs. */
  lemma PlacementTopIndependent(a: Rect, c: Rect, vp: Viewport, ao: Origin, to: Origin,
                                a': Rect, c': Rect, vp': Viewport, ao': Origin, to': Origin)
    requires a.top == a'.top && a.height == a'.height && c.height == c'.height
    requires vp.height == vp'.height && ao.vertical == ao'.vertical && to.vertical == to'.vertical
    ensures Placement(a, c, vp, ao, to).top == Placement(a', c', vp', ao', to').top
  {
    assert RawPosition(a, c, ao, to).top == RawPosition(a', c', ao', to').top;
    assert FlipAbove(a, c) == FlipAbove(a', c') && FlipBelow(a) == FlipBelow(a');
  }

  /** The committed left depends only on horizontal inputs. */
  lemma PlacementLeftIndependent(a: Rect, c: Rect, vp: Viewport, ao: Origin, to: Origin,
                                 a': Rect, c': Rect, vp': Viewport, ao': Origin, to': Origin)
    requires a.left == a'.left && a.width == a'.width && c.width == c'.width
    requires vp.width == vp'.width && ao.horizontal == ao'.horizontal && to.horizontal == to'.horizontal
    ensures Placement(a, c, vp, ao, to).left == Placement(a', c', vp', ao', to').left
  {
    assert RawPosition(a, c, ao, to).left == RawPosition(a', c', ao', to').left;
    assert FlipLeft(a, c) == FlipLeft(a', c') && FlipRight(a) == FlipRight(a');
  }

  /** When the panel fits in the viewport, the committed position keeps every
      padding except the far edge of an accepted flip. */
  lemma PlacementBounds(a: Rect, c: Rect, vp: Viewport, ao: Origin, to: Origin)
    requires vp.height - c.height >= 2.0 * Padding && vp.width - c.width >= 2.0 * Padding
    ensures var p := Placement(a, c, vp, ao, to);
      (Padding <= p.top || (ao.vertical == Top && p.top == FlipBelow(a)))
      && (p.top + c.height <= vp.height - Padding || (ao.vertical == Bottom && p.top == FlipAbove(a, c)))
      && (Padding <= p.left || (ao.horizontal == Left && p.left == FlipRight(a)))
      && (p.left + c.width <= vp.width - Padding || (ao.horizontal == Right && p.left == FlipLeft(a, c)))
  {
    var raw := RawPosition(a, c, ao, to);
    FitAxisBounds(raw.top, c.height, vp.height, VerticalSide(ao.vertical), FlipAbove(a, c), FlipBelow(a));
    FitAxisBounds(raw.left, c.width, vp.width, HorizontalSide(ao.horizontal), FlipLeft(a, c), FlipRight(a));
  }

  // ---------------------------------------------------------------------
  // Scroll dismissal
  // ---------------------------------------------------------------------

  /** `Math.sqrt(dy² + dx²) > threshold`, written without the square root. */
  function ScrollExceeds(dx: real, dy: real, threshold: real): (r: bool)
    ensures threshold < 0.0 ==> r
    ensures dx == 0.0 && dy == 0.0 ==> (r <==> threshold < 0.0)
  {
    threshold < 0.0 || dx * dx + dy * dy > threshold * threshold
  }

  /** For the exact distance `d` (the non-negative root of dx² + dy²), the
      test is `d > threshold`, strictly. */
  lemma ScrollExceedsIff(dx: real, dy: real, threshold: real, d: real)
    requires d >= 0.0 && d * d == dx * dx + dy * dy
    ensures ScrollExceeds(dx, dy, threshold) <==> d > threshold
  {
    if threshold >= 0.0 {
      SquareMonotone(d, threshold);
    }
  }

  /** On non-negative numbers, comparing squares is comparing the numbers. */
  lemma SquareMonotone(x: real, y: real)
    requires x >= 0.0 && y >= 0.0
    ensures x > y <==> x * x > y * y
  {
    var diff, sum := x - y, x + y;
    assert x * x - y * y == diff * sum;
    if x > y {
      ProductPositive(diff, sum);
    } else if sum > 0.0 {
      ProductPositive(-diff + 1.0, sum);
      assert -diff * sum >= 0.0;
    } else {
      assert x == 0.0 && y == 0.0;
    }
  }

  lemma ProductPositive(x: real, y: real)
    requires x > 0.0 && y > 0.0
    ensures x * y > 0.0
  {
  }

  /** A scroll of exactly the threshold keeps the menu open: 30 across and
      40 down is a distance of 50. */
  lemma ScrollAtThresholdStaysOpen()
    ensures !ScrollExceeds(30.0, 40.0, DefaultScrollThreshold)
    ensures ScrollExceeds(30.0, 41.0, DefaultScrollThreshold)
  {
  }
}
