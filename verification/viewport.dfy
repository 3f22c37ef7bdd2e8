/** The risk map's viewport: a pan offset in pixels and a zoom factor kept in
    [0.5, 3] by the zoom buttons. JavaScript doubles are modelled as exact
    reals. */
module MapViewport {

  datatype Viewport = Viewport(x: real, y: real, zoom: real)

  const MinZoom: real := 0.5
  const MaxZoom: real := 3.0
  const ZoomStep: real := 0.2

  /** The viewport the map is created with and `resetView` restores. */
  const Initial: Viewport := Viewport(0.0, 0.0, 1.0)

  datatype ZoomDirection = In | Out

  predicate ZoomInRange(v: Viewport) {
    MinZoom <= v.zoom <= MaxZoom
  }

  /** `handleZoom`: one step of +0.2 (in) or -0.2 (out), then clamped with
      `Math.max(0.5, Math.min(3, ...))`; the pan offset is untouched. */
  function Zoom(v: Viewport, direction: ZoomDirection): (r: Viewport)
    ensures r.x == v.x && r.y == v.y
    ensures ZoomInRange(r)
    ensures var target := v.zoom + (if direction == In then ZoomStep else -ZoomStep);
            && (MinZoom <= target <= MaxZoom ==> r.zoom == target)
            && (target > MaxZoom ==> r.zoom == MaxZoom)
            && (target < MinZoom ==> r.zoom == MinZoom)
  {
    var target := v.zoom + (if direction == In then ZoomStep else -ZoomStep);
    var capped := if MaxZoom < target then MaxZoom else target;
    v.(zoom := if MinZoom > capped then MinZoom else capped)
  }

  /** A sequence of zoom button presses. */
  function ZoomAll(v: Viewport, directions: seq<ZoomDirection>): Viewport
    decreases |directions|
  {
    if |directions| == 0 then v else ZoomAll(Zoom(v, directions[0]), directions[1..])
  }

  /** Whatever buttons are pressed, starting inside [0.5, 3] the zoom stays
      inside it and the pan offset never moves. */
  lemma {:induction false} ZoomAllInRange(v: Viewport, directions: seq<ZoomDirection>)
    requires ZoomInRange(v)
    ensures ZoomInRange(ZoomAll(v, directions))
    ensures ZoomAll(v, directions).x == v.x && ZoomAll(v, directions).y == v.y
    decreases |directions|
  {
    if |directions| > 0 {
      ZoomAllInRange(Zoom(v, directions[0]), directions[1..]);
    }
  }

  /** Zooming in and then out returns to the same viewport when the first
      step was not clamped. */
  lemma ZoomInThenOut(v: Viewport)
    requires MinZoom <= v.zoom && v.zoom + ZoomStep <= MaxZoom
    ensures Zoom(Zoom(v, In), Out) == v
  {
  }

  /** Drag arithmetic: the viewport offset while panning is the cursor
      position minus the offset captured at mouse-down. */
  function PanTo(v: Viewport, clientX: real, clientY: real, startX: real, startY: real): (r: Viewport)
    ensures r.zoom == v.zoom
    ensures r.x + startX == clientX && r.y + startY == clientY
  {
    v.(x := clientX - startX, y := clientY - startY)
  }
}
