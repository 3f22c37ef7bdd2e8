/** The interactive risk map component: its React state as one immutable
    record and each event handler as a transition on it. Cursor positions
    come in twice: in client pixels (for panning) and, when the map surface
    is mounted, already converted to surface percentages (for drawing). */
module RiskMap {
  import opened Wrappers
  import opened Seqs
  import opened MapViewport
  import opened Layers
  import opened Annotations
  import opened EntitySearch

  datatype Point = Point(x: real, y: real)

  /** The component state the handlers read and write. The view-mode and
      timeframe selects and the animation flag are not modelled. */
  datatype MapState = MapState(
    viewport: Viewport,
    isDragging: bool,
    dragStart: Option<Point>,
    tool: Tool,
    shapes: seq<Shape>,
    isDrawing: bool,
    draft: Option<Shape>,
    searchQuery: string,
    selectedZone: Option<string>,
    selectedIncident: Option<string>,
    selectedStation: Option<string>,
    layers: seq<Layer>)

  const InitialState: MapState :=
    MapState(MapViewport.Initial, false, None, Select, [], false, None, "", None, None, None, InitialLayers)

  /** The flags agree with the values they guard: a drag has a start, a
      drawing has a draft. */
  predicate Wf(s: MapState) {
    (s.isDragging <==> s.dragStart.Some?) && (s.isDrawing <==> s.draft.Some?)
  }

  lemma InitialStateWf()
    ensures Wf(InitialState) && ZoomInRange(InitialState.viewport)
    ensures InitialState.shapes == [] && InitialState.draft.None? && InitialState.tool == Select
    ensures EnabledIds(InitialState.layers) == {"risk-zones", "fire-incidents", "weather-stations"}
  {
    InitialEnabledLayers();
  }

  /** A pan drag is under way and mouse moves follow it. */
  predicate PanActive(s: MapState) {
    s.isDragging && s.dragStart.Some? && s.tool == Pan
  }

  /** `handleMouseDown`. With the pan tool a drag starts and records the
      cursor minus the current offset; with a draw tool and a mounted
      surface a draft of the tool's kind starts at the cursor; otherwise
      nothing happens. */
  function MouseDown(s: MapState, client: Point, surface: Option<Point>, now: nat): (r: MapState)
    ensures Wf(s) ==> Wf(r)
    ensures s.tool == Pan ==>
              && r.isDragging && r.dragStart.Some?
              && r.dragStart.value.x + s.viewport.x == client.x
              && r.dragStart.value.y + s.viewport.y == client.y
              && r.(isDragging := s.isDragging, dragStart := s.dragStart) == s
    ensures DrawKind(s.tool).Some? && surface.Some? ==>
              && r.isDrawing && r.draft.Some?
              && r.draft.value.kind == DrawKind(s.tool).value
              && r.draft.value.coords.x == surface.value.x && r.draft.value.coords.y == surface.value.y
              && r.draft.value.coords.x2.None? && r.draft.value.coords.y2.None?
              && r.draft.value.coords.radius.None?
              && r.draft.value.id == ShapeId(now) && r.draft.value.color == DraftColor
              && r.(isDrawing := s.isDrawing, draft := s.draft) == s
    ensures s.tool == Select || (DrawKind(s.tool).Some? && surface.None?) ==> r == s
  {
    if s.tool == Pan then
      s.(isDragging := true, dragStart := Some(Point(client.x - s.viewport.x, client.y - s.viewport.y)))
    else if DrawKind(s.tool).Some? then
      match surface
      case Some(p) => s.(isDrawing := true, draft := Some(StartDraft(DrawKind(s.tool).value, now, p.x, p.y)))
      case None => s
    else s
  }

  /** What the caller of `handleMouseMove` supplies as `Math.sqrt` of the
      squared cursor distance: the true distance from a circle draft's
      anchor. A rectangle draft does not use it. */
  predicate MoveDistance(s: MapState, surface: Option<Point>, distance: real) {
    s.draft.Some? && s.draft.value.kind == Circle && surface.Some? ==>
      IsDistance(distance, s.draft.value.coords.x, s.draft.value.coords.y, surface.value.x, surface.value.y)
  }

  /** `handleMouseMove`. During a pan drag the offset becomes the cursor
      minus the recorded start, zoom untouched; while drawing with a mounted
      surface the draft is extended; otherwise nothing happens. */
  function MouseMove(s: MapState, client: Point, surface: Option<Point>, distance: real): (r: MapState)
    requires MoveDistance(s, surface, distance)
    ensures Wf(s) ==> Wf(r)
    ensures PanActive(s) ==>
              && r.viewport.zoom == s.viewport.zoom
              && r.viewport.x + s.dragStart.value.x == client.x
              && r.viewport.y + s.dragStart.value.y == client.y
              && r.(viewport := s.viewport) == s
    ensures !PanActive(s) && s.isDrawing && s.draft.Some? && surface.Some? ==>
              var d := s.draft.value;
              var p := surface.value;
              && r.draft.Some?
              && r.draft.value.id == d.id && r.draft.value.kind == d.kind && r.draft.value.color == d.color
              && r.draft.value.coords.x == d.coords.x && r.draft.value.coords.y == d.coords.y
              && (d.kind == Rectangle ==>
                    r.draft.value.coords.x2 == Some(p.x) && r.draft.value.coords.y2 == Some(p.y))
              && (d.kind == Circle ==>
                    && r.draft.value.coords.radius.Some?
                    && IsDistance(r.draft.value.coords.radius.value, d.coords.x, d.coords.y, p.x, p.y))
              && r.(draft := s.draft) == s
    ensures !PanActive(s) && !(s.isDrawing && s.draft.Some? && surface.Some?) ==> r == s
  {
    if PanActive(s) then
      s.(viewport := PanTo(s.viewport, client.x, client.y, s.dragStart.value.x, s.dragStart.value.y))
    else if s.isDrawing && s.draft.Some? && surface.Some? then
      s.(draft := Some(ExtendDraft(s.draft.value, surface.value.x, surface.value.y, distance)))
    else s
  }

  /** `handleMouseUp`, bound to both mouse-up and mouse-leave of the map
      surface. A drag ends without committing anything; otherwise a draft is
      committed as the last shape, the draft is cleared and the tool returns
      to select. */
  function MouseUp(s: MapState): (r: MapState)
    ensures Wf(s) ==> Wf(r)
    ensures s.isDragging ==>
              && !r.isDragging && r.dragStart.None?
              && r.(isDragging := s.isDragging, dragStart := s.dragStart) == s
    ensures !s.isDragging && s.isDrawing && s.draft.Some? ==>
              && r.shapes == s.shapes + [s.draft.value]
              && !r.isDrawing && r.draft.None? && r.tool == Select
              && r.(shapes := s.shapes, isDrawing := s.isDrawing, draft := s.draft, tool := s.tool) == s
    ensures !s.isDragging && !(s.isDrawing && s.draft.Some?) ==> r == s
  {
    if s.isDragging then
      s.(isDragging := false, dragStart := None)
    else if s.isDrawing && s.draft.Some? then
      s.(shapes := s.shapes + [s.draft.value], isDrawing := false, draft := None, tool := Select)
    else s
  }

  /** The zoom buttons: only the zoom factor changes, by one clamped step. */
  function ZoomButton(s: MapState, direction: ZoomDirection): (r: MapState)
    ensures ZoomInRange(r.viewport)
    ensures r.viewport.x == s.viewport.x && r.viewport.y == s.viewport.y
    ensures ZoomInRange(s.viewport) && s.viewport.zoom < MaxZoom && direction == In ==>
              r.viewport.zoom > s.viewport.zoom
    ensures ZoomInRange(s.viewport) && s.viewport.zoom > MinZoom && direction == Out ==>
              r.viewport.zoom < s.viewport.zoom
    ensures r.(viewport := s.viewport) == s
  {
    s.(viewport := Zoom(s.viewport, direction))
  }

  /** `resetView`: the viewport goes back to offset (0, 0) and zoom 1
      whatever it was; nothing else changes. */
  function ResetView(s: MapState): (r: MapState)
    ensures r.viewport.x == 0.0 && r.viewport.y == 0.0 && r.viewport.zoom == 1.0
    ensures r.viewport == InitialState.viewport
    ensures r.(viewport := s.viewport) == s
  {
    s.(viewport := MapViewport.Initial)
  }

  /** `clearDrawings`: every committed shape and any draft are discarded;
      tool, viewport and drag state are kept. */
  function ClearDrawings(s: MapState): (r: MapState)
    ensures Wf(s) ==> Wf(r)
    ensures r.shapes == [] && r.draft.None? && !r.isDrawing
    ensures r.(shapes := s.shapes, draft := s.draft, isDrawing := s.isDrawing) == s
  {
    s.(shapes := [], draft := None, isDrawing := false)
  }

  /** The × button of one annotation: removes exactly the shapes carrying
      that id and keeps the others in order. */
  function DeleteAnnotation(s: MapState, id: string): (r: MapState)
    ensures forall x :: x in r.shapes <==> x in s.shapes && x.id != id
    ensures forall x :: multiset(r.shapes)[x] == if x.id != id then multiset(s.shapes)[x] else 0
    ensures Subsequence(r.shapes, s.shapes)
    ensures r.(shapes := s.shapes) == s
  {
    s.(shapes := DeleteShape(s.shapes, id))
  }

  /** A toolbar button. */
  function SetTool(s: MapState, t: Tool): (r: MapState)
    ensures r.tool == t && r.(tool := s.tool) == s
  {
    s.(tool := t)
  }

  /** The layer switch. */
  function SwitchLayer(s: MapState, layerId: string): (r: MapState)
    ensures r.layers == ToggleLayer(s.layers, layerId)
    ensures r.(layers := s.layers) == s
  {
    s.(layers := ToggleLayer(s.layers, layerId))
  }

  /** The layer opacity slider. */
  function SlideOpacity(s: MapState, layerId: string, opacity: real): (r: MapState)
    ensures r.layers == UpdateLayerOpacity(s.layers, layerId, opacity)
    ensures r.(layers := s.layers) == s
  {
    s.(layers := UpdateLayerOpacity(s.layers, layerId, opacity))
  }

  /** The search box's change handler. */
  function TypeQuery(s: MapState, query: string): (r: MapState)
    ensures r.searchQuery == query && r.(searchQuery := s.searchQuery) == s
  {
    s.(searchQuery := query)
  }

  /** The hits for the current query over the fixtures. */
  function Results(s: MapState): seq<SearchResult> {
    Search(s.searchQuery, Zones, Incidents, Stations)
  }

  /** Whether the hit list is on screen. */
  predicate ResultsShown(s: MapState) {
    DropdownShown(s.searchQuery, Results(s))
  }

  /** With an empty query every name matches, yet the hit list stays hidden. */
  lemma EmptyQueryHidden(s: MapState)
    requires s.searchQuery == ""
    ensures |Results(s)| == MaxResults
    ensures !ResultsShown(s)
  {
    EmptyQueryOnFixtures();
  }

  /** Clicking a hit: the selection of the hit's kind becomes its id and the
      query is cleared; the other selections are kept. */
  function ChooseResult(s: MapState, result: SearchResult): (r: MapState)
    ensures r.searchQuery == ""
    ensures result.kind == Zone ==> r.selectedZone == Some(result.id)
    ensures result.kind == Incident ==> r.selectedIncident == Some(result.id)
    ensures result.kind == Station ==> r.selectedStation == Some(result.id)
    ensures result.kind != Zone ==> r.selectedZone == s.selectedZone
    ensures result.kind != Incident ==> r.selectedIncident == s.selectedIncident
    ensures result.kind != Station ==> r.selectedStation == s.selectedStation
    ensures r.(searchQuery := s.searchQuery, selectedZone := s.selectedZone,
               selectedIncident := s.selectedIncident, selectedStation := s.selectedStation) == s
  {
    match result.kind
    case Zone => s.(selectedZone := Some(result.id), searchQuery := "")
    case Incident => s.(selectedIncident := Some(result.id), searchQuery := "")
    case Station => s.(selectedStation := Some(result.id), searchQuery := "")
  }

  /** The selection a kind of marker writes to. */
  function Selection(s: MapState, kind: EntityKind): Option<string> {
    match kind
    case Zone => s.selectedZone
    case Incident => s.selectedIncident
    case Station => s.selectedStation
  }

  /** Clicking a marker on the map: a click on the selected marker clears
      the selection of its kind, a click on any other selects it; the other
      two selections and the rest of the state are kept. */
  function ClickMarker(s: MapState, kind: EntityKind, id: string): (r: MapState)
    ensures Selection(r, kind).None? <==> Selection(s, kind) == Some(id)
    ensures Selection(r, kind).Some? ==> Selection(r, kind) == Some(id)
    ensures forall k :: k != kind ==> Selection(r, k) == Selection(s, k)
    ensures r.(selectedZone := s.selectedZone, selectedIncident := s.selectedIncident,
               selectedStation := s.selectedStation) == s
  {
    match kind
    case Zone => s.(selectedZone := ToggleChoice(s.selectedZone, id))
    case Incident => s.(selectedIncident := ToggleChoice(s.selectedIncident, id))
    case Station => s.(selectedStation := ToggleChoice(s.selectedStation, id))
  }

  /** Clicking the same marker twice: a selection the first click made is
      cleared again, and one it cleared is restored. */
  lemma ClickMarkerTwice(s: MapState, kind: EntityKind, id: string)
    ensures var twice := ClickMarker(ClickMarker(s, kind, id), kind, id);
            && (Selection(s, kind) == Some(id) ==> twice == s)
            && (Selection(s, kind) != Some(id) ==>
                  && Selection(twice, kind).None?
                  && (forall k :: k != kind ==> Selection(twice, k) == Selection(s, k))
                  && twice.(selectedZone := s.selectedZone, selectedIncident := s.selectedIncident,
                            selectedStation := s.selectedStation) == s)
  {
    var once := ClickMarker(s, kind, id);
    var twice := ClickMarker(once, kind, id);
    if Selection(s, kind) == Some(id) {
      assert Selection(twice, kind) == Selection(s, kind);
      assert forall k :: Selection(twice, k) == Selection(s, k);
    }
  }

  /** A complete pan gesture: while dragging, the offset is the offset at
      mouse-down plus the cursor's displacement and the zoom is unchanged;
      releasing commits no shape. */
  lemma PanGesture(s: MapState, c0: Point, c1: Point, s0: Option<Point>, s1: Option<Point>, now: nat, d: real)
    requires s.tool == Pan
    requires MoveDistance(s, s1, d)
    ensures var down := MouseDown(s, c0, s0, now);
            var moved := MouseMove(down, c1, s1, d);
            var up := MouseUp(moved);
            && moved.viewport.x == s.viewport.x + (c1.x - c0.x)
            && moved.viewport.y == s.viewport.y + (c1.y - c0.y)
            && moved.viewport.zoom == s.viewport.zoom
            && up.shapes == s.shapes && up.draft == s.draft && up.tool == Pan
            && !up.isDragging && up.viewport == moved.viewport
  {
  }

  /** A complete circle gesture: one new shape is appended after the old
      ones, a circle anchored at the press with radius equal to the distance
      to the last cursor position, and the tool returns to select. */
  lemma CircleGesture(s: MapState, c0: Point, c1: Point, p0: Point, p1: Point, now: nat, d: real)
    requires s.tool == DrawCircle && !s.isDragging
    requires IsDistance(d, p0.x, p0.y, p1.x, p1.y)
    ensures var down := MouseDown(s, c0, Some(p0), now);
            down.draft == Some(StartDraft(Circle, now, p0.x, p0.y)) &&
            var up := MouseUp(MouseMove(down, c1, Some(p1), d));
            var last := up.shapes[|up.shapes| - 1];
            && |up.shapes| == |s.shapes| + 1
            && up.shapes[..|s.shapes|] == s.shapes
            && last.kind == Circle && last.id == ShapeId(now)
            && last.coords.x == p0.x && last.coords.y == p0.y
            && last.coords.radius == Some(d)
            && up.tool == Select && up.draft.None? && !up.isDrawing
            && up.viewport == s.viewport
  {
    var down := MouseDown(s, c0, Some(p0), now);
    var moved := MouseMove(down, c1, Some(p1), d);
    var r := moved.draft.value.coords.radius.value;
    DistanceUnique(r, d, p0.x, p0.y, p1.x, p1.y);
    var up := MouseUp(moved);
    assert up.shapes == s.shapes + [moved.draft.value];
  }

  /** A complete rectangle gesture: the committed rectangle keeps the press
      point as one corner and the last cursor position as the other, and is
      rendered in the box those two corners span. */
  lemma RectangleGesture(s: MapState, c0: Point, c1: Point, p0: Point, p1: Point, now: nat, d: real)
    requires s.tool == DrawRectangle && !s.isDragging
    requires p1.x != 0.0 && p1.y != 0.0
    ensures var up := MouseUp(MouseMove(MouseDown(s, c0, Some(p0), now), c1, Some(p1), d));
            var last := up.shapes[|up.shapes| - 1];
            && |up.shapes| == |s.shapes| + 1
            && up.shapes[..|s.shapes|] == s.shapes
            && last.kind == Rectangle
            && last.coords.x == p0.x && last.coords.y == p0.y
            && last.coords.x2 == Some(p1.x) && last.coords.y2 == Some(p1.y)
            && RectangleBox(last) == Some(Box(Min(p0.x, p1.x), Min(p0.y, p1.y), Abs(p1.x - p0.x), Abs(p1.y - p0.y)))
            && up.tool == Select && up.draft.None?
  {
    var down := MouseDown(s, c0, Some(p0), now);
    var moved := MouseMove(down, c1, Some(p1), d);
    var up := MouseUp(moved);
    assert up.shapes == s.shapes + [moved.draft.value];
  }

  /** Clearing right after a press discards the draft: releasing then
      commits nothing. */
  lemma ClearDiscardsDraft(s: MapState, c0: Point, p0: Point, now: nat)
    requires DrawKind(s.tool).Some? && !s.isDragging
    ensures var cleared := ClearDrawings(MouseDown(s, c0, Some(p0), now));
            MouseUp(cleared).shapes == [] && MouseUp(cleared).draft.None?
  {
  }
}
