/**
 * The bounding-box arithmetic of the area editor in static/main.js.
 * Bounds are in logical image pixels; the canvas shows them multiplied by
 * `canvasScale`. Numbers are reals (JavaScript doubles without rounding error).
 */
module Geometry {
  import opened Wrappers

  datatype Bounds = Bounds(x: real, y: real, width: real, height: real)

  /** The four integer inputs `boundsX/Y/Width/Height` of the area form, as `parseInt(...) || 0` reads them. */
  datatype FormBounds = FormBounds(x: int, y: int, width: int, height: int)

  /** A cleared form reads back as zeros. */
  const ClearedForm: FormBounds := FormBounds(0, 0, 0, 0)

  function Min(a: real, b: real): real { if a <= b then a else b }
  function Max(a: real, b: real): real { if a >= b then a else b }
  function Abs(a: real): real { if a >= 0.0 then a else -a }

  /** JavaScript's `Math.round`: the nearest integer, halves rounded up. */
  function JsRound(r: real): (n: int)
    ensures r - 0.5 < n as real <= r + 0.5
  {
    (r + 0.5).Floor
  }

  lemma JsRoundHalvesGoUp()
    ensures JsRound(312.5) == 313 && JsRound(-0.5) == 0 && JsRound(156.25) == 156
  {
  }

  /** `updateAreaInputs`: the form shows the rounded bounds. */
  function FormOf(b: Bounds): (f: FormBounds)
    ensures b.x - 0.5 < f.x as real <= b.x + 0.5 && b.y - 0.5 < f.y as real <= b.y + 0.5
    ensures b.width - 0.5 < f.width as real <= b.width + 0.5
    ensures b.height - 0.5 < f.height as real <= b.height + 0.5
  {
    FormBounds(JsRound(b.x), JsRound(b.y), JsRound(b.width), JsRound(b.height))
  }

  function BoundsOf(f: FormBounds): Bounds
  {
    Bounds(f.x as real, f.y as real, f.width as real, f.height as real)
  }

  /** A form entered as whole numbers reads back unchanged once the area is selected. */
  lemma FormRoundTrip(f: FormBounds)
    ensures FormOf(BoundsOf(f)) == f
  {
    assert JsRound(f.x as real) == f.x;
    assert JsRound(f.y as real) == f.y;
  }

  /** The hit test of one area: the scaled box, edges included, contains the point. */
  predicate ContainsPoint(b: Bounds, scale: real, px: real, py: real)
  {
    var cx, cy := b.x * scale, b.y * scale;
    px >= cx && px <= cx + b.width * scale && py >= cy && py <= cy + b.height * scale
  }

  /** The eight resize handles, in the order `getResizeHandle` tries them. */
  datatype Handle = NW | NE | SW | SE | N | S | W | E

  const HandleOrder: seq<Handle> := [NW, NE, SW, SE, N, S, W, E]

  /** Position of a handle in `HandleOrder`. */
  function HandleRank(h: Handle): (k: nat)
    ensures k < |HandleOrder| && HandleOrder[k] == h
  {
    match h
    case NW => 0 case NE => 1 case SW => 2 case SE => 3
    case N => 4 case S => 5 case W => 6 case E => 7
  }

  /** The canvas point a handle sits on: a corner or the middle of an edge of the scaled box. */
  function Anchor(h: Handle, b: Bounds, scale: real): (real, real)
  {
    var cx, cy, cw, ch := b.x * scale, b.y * scale, b.width * scale, b.height * scale;
    match h
    case NW => (cx, cy)
    case NE => (cx + cw, cy)
    case SW => (cx, cy + ch)
    case SE => (cx + cw, cy + ch)
    case N => (cx + cw / 2.0, cy)
    case S => (cx + cw / 2.0, cy + ch)
    case W => (cx, cy + ch / 2.0)
    case E => (cx + cw, cy + ch / 2.0)
  }

  const HandleTolerance: real := 8.0

  predicate NearHandle(h: Handle, b: Bounds, scale: real, px: real, py: real)
  {
    Abs(px - Anchor(h, b, scale).0) <= HandleTolerance && Abs(py - Anchor(h, b, scale).1) <= HandleTolerance
  }

  /** Index of the first handle of `hs` near the point, or -1. */
  function FirstNear(hs: seq<Handle>, b: Bounds, scale: real, px: real, py: real): (k: int)
    ensures -1 <= k < |hs|
    ensures k >= 0 ==> NearHandle(hs[k], b, scale, px, py)
    ensures k >= 0 ==> forall j :: 0 <= j < k ==> !NearHandle(hs[j], b, scale, px, py)
    ensures k == -1 ==> forall j :: 0 <= j < |hs| ==> !NearHandle(hs[j], b, scale, px, py)
  {
    if hs == [] then -1
    else if NearHandle(hs[0], b, scale, px, py) then 0
    else
      var k := FirstNear(hs[1..], b, scale, px, py);
      if k == -1 then -1 else k + 1
  }

  /**
   * The handle under the point: none exactly when no handle is within the
   * tolerance on both axes, otherwise the first in `HandleOrder` that is.
   */
  function HandleAt(b: Bounds, scale: real, px: real, py: real): (r: Option<Handle>)
    ensures r.None? <==> forall h: Handle :: !NearHandle(h, b, scale, px, py)
    ensures r.Some? ==> NearHandle(r.value, b, scale, px, py)
    ensures r.Some? ==> forall h: Handle :: HandleRank(h) < HandleRank(r.value) ==> !NearHandle(h, b, scale, px, py)
  {
    var k := FirstNear(HandleOrder, b, scale, px, py);
    if k == -1 then
      assert forall h: Handle :: !NearHandle(h, b, scale, px, py) by {
        forall h: Handle ensures !NearHandle(h, b, scale, px, py) {
          assert HandleOrder[HandleRank(h)] == h;
        }
      }
      None
    else
      assert HandleRank(HandleOrder[k]) == k;
      Some(HandleOrder[k])
  }

  /**
   * The 'move' branch of `updateSelectedArea`: the box is shifted by the
   * mouse delta and pushed back so it starts at 0 or more and, when it
   * fits, ends inside the image; its size never changes.
   */
  function Moved(b: Bounds, dx: real, dy: real, imageWidth: real, imageHeight: real): (r: Bounds)
    ensures r.width == b.width && r.height == b.height
    ensures r.x >= 0.0 && r.y >= 0.0
    ensures b.width <= imageWidth ==> r.x + r.width <= imageWidth
    ensures b.height <= imageHeight ==> r.y + r.height <= imageHeight
    ensures 0.0 <= b.x + dx <= imageWidth - b.width ==> r.x == b.x + dx
    ensures 0.0 <= b.y + dy <= imageHeight - b.height ==> r.y == b.y + dy
  {
    b.(x := Max(0.0, Min(b.x + dx, imageWidth - b.width)),
       y := Max(0.0, Min(b.y + dy, imageHeight - b.height)))
  }

  predicate MovesLeftEdge(h: Option<Handle>) { h == Some(NW) || h == Some(SW) || h == Some(W) }
  predicate MovesRightEdge(h: Option<Handle>) { h == Some(NE) || h == Some(SE) || h == Some(E) }
  predicate MovesTopEdge(h: Option<Handle>) { h == Some(NW) || h == Some(NE) || h == Some(N) }
  predicate MovesBottomEdge(h: Option<Handle>) { h == Some(SW) || h == Some(SE) || h == Some(S) }

  /**
   * The `switch (handle)` of `resizeArea`, before its clamps: each handle
   * drags its own edges by the mouse delta and leaves the opposite edges
   * where they were; no handle (`''`) changes nothing.
   */
  function ApplyHandle(b: Bounds, h: Option<Handle>, dx: real, dy: real): (r: Bounds)
    ensures MovesLeftEdge(h) ==> r.x == b.x + dx && r.x + r.width == b.x + b.width
    ensures MovesRightEdge(h) ==> r.x == b.x && r.width == b.width + dx
    ensures !MovesLeftEdge(h) && !MovesRightEdge(h) ==> r.x == b.x && r.width == b.width
    ensures MovesTopEdge(h) ==> r.y == b.y + dy && r.y + r.height == b.y + b.height
    ensures MovesBottomEdge(h) ==> r.y == b.y && r.height == b.height + dy
    ensures !MovesTopEdge(h) && !MovesBottomEdge(h) ==> r.y == b.y && r.height == b.height
  {
    match h
    case None => b
    case Some(NW) => Bounds(b.x + dx, b.y + dy, b.width - dx, b.height - dy)
    case Some(NE) => Bounds(b.x, b.y + dy, b.width + dx, b.height - dy)
    case Some(SW) => Bounds(b.x + dx, b.y, b.width - dx, b.height + dy)
    case Some(SE) => b.(width := b.width + dx, height := b.height + dy)
    case Some(N) => b.(y := b.y + dy, height := b.height - dy)
    case Some(S) => b.(height := b.height + dy)
    case Some(W) => b.(x := b.x + dx, width := b.width - dx)
    case Some(E) => b.(width := b.width + dx)
  }

  const MinResizeSize: real := 10.0

  /**
   * The clamps that end `resizeArea`: the origin is pushed to 0 or more, the
   * size to at least 10 and, where the image leaves room for 10, to no more
   * than the image; a box that already satisfies them is left alone.
   */
  function Clamped(b: Bounds, imageWidth: real, imageHeight: real): (r: Bounds)
    ensures r.x >= 0.0 && r.y >= 0.0
    ensures r.width >= MinResizeSize && r.height >= MinResizeSize
    ensures imageWidth - r.x >= MinResizeSize ==> r.x + r.width <= imageWidth
    ensures imageHeight - r.y >= MinResizeSize ==> r.y + r.height <= imageHeight
    ensures b.x >= 0.0 ==> r.x == b.x
    ensures b.y >= 0.0 ==> r.y == b.y
    ensures b.x >= 0.0 && MinResizeSize <= b.width <= imageWidth - b.x ==> r.width == b.width
    ensures b.y >= 0.0 && MinResizeSize <= b.height <= imageHeight - b.y ==> r.height == b.height
  {
    var x := Max(0.0, b.x);
    var y := Max(0.0, b.y);
    Bounds(x, y, Max(MinResizeSize, Min(b.width, imageWidth - x)), Max(MinResizeSize, Min(b.height, imageHeight - y)))
  }

  /** Clamping twice is clamping once. */
  lemma ClampIdempotent(b: Bounds, imageWidth: real, imageHeight: real)
    ensures Clamped(Clamped(b, imageWidth, imageHeight), imageWidth, imageHeight) == Clamped(b, imageWidth, imageHeight)
  {
  }

  /** `resizeArea` on one box. */
  function Resized(b: Bounds, h: Option<Handle>, dx: real, dy: real, imageWidth: real, imageHeight: real): (r: Bounds)
    ensures r.x >= 0.0 && r.y >= 0.0
    ensures r.width >= MinResizeSize && r.height >= MinResizeSize
    ensures imageWidth - r.x >= MinResizeSize ==> r.x + r.width <= imageWidth
    ensures imageHeight - r.y >= MinResizeSize ==> r.y + r.height <= imageHeight
  {
    Clamped(ApplyHandle(b, h, dx, dy), imageWidth, imageHeight)
  }

  /**
   * Dragging 'se' by (+50, +50) logical pixels grows the box and keeps its
   * origin; the box is the one `DrawExample` draws.
   */
  lemma ResizeSouthEastExample()
    ensures Resized(Bounds(313.0, 313.0, 313.0, 156.0), Some(SE), 50.0, 50.0, 2500.0, 1686.0)
         == Bounds(313.0, 313.0, 363.0, 206.0)
  {
  }

  /** `startDrawing`: the form shows the logical start point and a zero size. */
  function StartForm(px: real, py: real, scale: real): (f: FormBounds)
    requires scale > 0.0
    ensures f.width == 0 && f.height == 0
    ensures px / scale - 0.5 < f.x as real <= px / scale + 0.5
    ensures py / scale - 0.5 < f.y as real <= py / scale + 0.5
  {
    FormBounds(JsRound(px / scale), JsRound(py / scale), 0, 0)
  }

  /**
   * `draw`: the rectangle spanned by the start point and the mouse, in
   * logical pixels and rounded, whatever the drag direction.
   */
  function DrawnForm(startX: real, startY: real, px: real, py: real, scale: real): (f: FormBounds)
    requires scale > 0.0
    ensures f.width >= 0 && f.height >= 0
    ensures f.x as real - 0.5 <= Min(px, startX) / scale < f.x as real + 0.5
    ensures f.y as real - 0.5 <= Min(py, startY) / scale < f.y as real + 0.5
    ensures f.width as real - 0.5 <= Abs(px - startX) / scale < f.width as real + 0.5
    ensures f.height as real - 0.5 <= Abs(py - startY) / scale < f.height as real + 0.5
  {
    FormBounds(JsRound(Min(px, startX) / scale), JsRound(Min(py, startY) / scale),
               JsRound(Abs(px - startX) / scale), JsRound(Abs(py - startY) / scale))
  }

  /** Dragging from A to B draws the same rectangle as dragging from B to A. */
  lemma DrawDirectionIrrelevant(x1: real, y1: real, x2: real, y2: real, scale: real)
    requires scale > 0.0
    ensures DrawnForm(x1, y1, x2, y2, scale) == DrawnForm(x2, y2, x1, y1, scale)
  {
    assert Abs(x2 - x1) == Abs(x1 - x2) && Abs(y2 - y1) == Abs(y1 - y2);
  }

  /** Dragging from (100, 100) to (200, 150) at scale 0.32. */
  lemma DrawExample()
    ensures DrawnForm(100.0, 100.0, 200.0, 150.0, 0.32) == FormBounds(313, 313, 313, 156)
  {
    assert 100.0 / 0.32 == 312.5;
    assert 50.0 / 0.32 == 156.25;
  }

  const MaxCanvasWidth: real := 800.0
  const MaxCanvasHeight: real := 600.0

  /**
   * The scale `loadImage` picks: the largest factor of at most 1 that fits
   * the image in 800 x 600 canvas pixels; it never enlarges.
   */
  function ImageScale(imageWidth: real, imageHeight: real): (s: real)
    requires imageWidth > 0.0 && imageHeight > 0.0
    ensures 0.0 < s <= 1.0
    ensures imageWidth * s <= MaxCanvasWidth && imageHeight * s <= MaxCanvasHeight
    ensures s == 1.0 || imageWidth * s == MaxCanvasWidth || imageHeight * s == MaxCanvasHeight
  {
    Min(Min(MaxCanvasWidth / imageWidth, MaxCanvasHeight / imageHeight), 1.0)
  }

  lemma ImageScaleExample()
    ensures ImageScale(2500.0, 1686.0) == 0.32
  {
    assert MaxCanvasWidth / 2500.0 == 0.32;
  }
}
