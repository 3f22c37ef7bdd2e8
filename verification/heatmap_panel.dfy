/** The MapLibre heatmap page: risk points become GeoJSON features, the map is
    fitted to their bounding box, and two controls switch the heatmap layer
    and its intensity. The map library is modelled by the few properties the
    page reads and writes. */
module HeatmapPanel {
  import opened Wrappers

  /** One point of the `/api/heatmap` response. */
  datatype Pt = Pt(lat: real, lon: real, risk: real)

  /** A GeoJSON position: `x` is the longitude and `y` the latitude, in that
      order, as section 3.1.1 of RFC 7946 prescribes. */
  datatype Position = Position(x: real, y: real)

  /** A point feature carrying its risk as its only property. */
  datatype Feature = Feature(risk: real, coordinates: Position)

  datatype FeatureCollection = FeatureCollection(features: seq<Feature>)

  function ToFeature(p: Pt): Feature {
    Feature(p.risk, Position(p.lon, p.lat))
  }

  /** `toFeatureCollection`: one feature per point, in order. */
  function ToFeatureCollection(pts: seq<Pt>): (fc: FeatureCollection)
    ensures |fc.features| == |pts|
    ensures forall i :: 0 <= i < |pts| ==>
              fc.features[i].risk == pts[i].risk
              && fc.features[i].coordinates.x == pts[i].lon
              && fc.features[i].coordinates.y == pts[i].lat
    decreases |pts|
  {
    if |pts| == 0 then FeatureCollection([])
    else FeatureCollection([ToFeature(pts[0])] + ToFeatureCollection(pts[1..]).features)
  }

  /** Reading a feature back as a point: latitude from the second coordinate. */
  function FromFeature(f: Feature): Pt {
    Pt(f.coordinates.y, f.coordinates.x, f.risk)
  }

  function ToPoints(fc: FeatureCollection): (pts: seq<Pt>)
    ensures |pts| == |fc.features|
    ensures forall i :: 0 <= i < |pts| ==> pts[i] == FromFeature(fc.features[i])
  {
    seq(|fc.features|, i requires 0 <= i < |fc.features| => FromFeature(fc.features[i]))
  }

  /** No point is lost, reordered or has its axes swapped on the way to the
      map. */
  lemma FeatureRoundTrip(pts: seq<Pt>)
    ensures ToPoints(ToFeatureCollection(pts)) == pts
  {
    var back := ToPoints(ToFeatureCollection(pts));
    assert |back| == |pts|;
    forall i | 0 <= i < |pts|
      ensures back[i] == pts[i]
    {
    }
  }

  /** `[minX, minY, maxX, maxY]`. */
  datatype BBox = BBox(minX: real, minY: real, maxX: real, maxY: real)

  function Min(a: real, b: real): real { if a <= b then a else b }
  function Max(a: real, b: real): real { if a >= b then a else b }

  /** The reducer passed to `reduce`: the first feature opens a degenerate
      box, every later one widens it. */
  function Widen(b: Option<BBox>, f: Feature): BBox {
    var x := f.coordinates.x;
    var y := f.coordinates.y;
    match b
    case None => BBox(x, y, x, y)
    case Some(c) => BBox(Min(c.minX, x), Min(c.minY, y), Max(c.maxX, x), Max(c.maxY, y))
  }

  /** The left fold of `Widen`, from the accumulator `b`. */
  function FoldBBox(b: Option<BBox>, fs: seq<Feature>): Option<BBox>
    decreases |fs|
  {
    if |fs| == 0 then b else FoldBBox(Some(Widen(b, fs[0])), fs[1..])
  }

  function Xs(fs: seq<Feature>): (r: seq<real>)
    ensures |r| == |fs| && forall i :: 0 <= i < |fs| ==> r[i] == fs[i].coordinates.x
  {
    seq(|fs|, i requires 0 <= i < |fs| => fs[i].coordinates.x)
  }

  function Ys(fs: seq<Feature>): (r: seq<real>)
    ensures |r| == |fs| && forall i :: 0 <= i < |fs| ==> r[i] == fs[i].coordinates.y
  {
    seq(|fs|, i requires 0 <= i < |fs| => fs[i].coordinates.y)
  }

  /** Running minimum and maximum of a list of reals from a start value. */
  function FoldMin(a: real, xs: seq<real>): real
    decreases |xs|
  {
    if |xs| == 0 then a else FoldMin(Min(a, xs[0]), xs[1..])
  }

  function FoldMax(a: real, xs: seq<real>): real
    decreases |xs|
  {
    if |xs| == 0 then a else FoldMax(Max(a, xs[0]), xs[1..])
  }

  /** The running minimum is below the start and every element, and is the
      start or one of the elements. */
  lemma {:induction false} FoldMinBounds(a: real, xs: seq<real>)
    ensures FoldMin(a, xs) <= a
    ensures forall i :: 0 <= i < |xs| ==> FoldMin(a, xs) <= xs[i]
    ensures FoldMin(a, xs) == a || FoldMin(a, xs) in xs
    decreases |xs|
  {
    if |xs| > 0 {
      FoldMinBounds(Min(a, xs[0]), xs[1..]);
      forall i | 0 < i < |xs|
        ensures FoldMin(a, xs) <= xs[i]
      {
        assert xs[i] == xs[1..][i - 1];
      }
    }
  }

  lemma {:induction false} FoldMaxBounds(a: real, xs: seq<real>)
    ensures FoldMax(a, xs) >= a
    ensures forall i :: 0 <= i < |xs| ==> FoldMax(a, xs) >= xs[i]
    ensures FoldMax(a, xs) == a || FoldMax(a, xs) in xs
    decreases |xs|
  {
    if |xs| > 0 {
      FoldMaxBounds(Max(a, xs[0]), xs[1..]);
      forall i | 0 < i < |xs|
        ensures FoldMax(a, xs) >= xs[i]
      {
        assert xs[i] == xs[1..][i - 1];
      }
    }
  }

  /** From a box already open, the combined fold is four independent running
      extrema, one per bound. */
  lemma {:induction false} FoldBBoxSplits(c: BBox, fs: seq<Feature>)
    ensures FoldBBox(Some(c), fs) ==
            Some(BBox(FoldMin(c.minX, Xs(fs)), FoldMin(c.minY, Ys(fs)),
                      FoldMax(c.maxX, Xs(fs)), FoldMax(c.maxY, Ys(fs))))
    decreases |fs|
  {
    if |fs| > 0 {
      FoldBBoxSplits(Widen(Some(c), fs[0]), fs[1..]);
      assert Xs(fs[1..]) == Xs(fs)[1..];
      assert Ys(fs[1..]) == Ys(fs)[1..];
    }
  }

  predicate Inside(b: BBox, p: Position) {
    b.minX <= p.x <= b.maxX && b.minY <= p.y <= b.maxY
  }

  /** The `reduce(..., null)` of `fitTo`: a box exactly when there is a
      feature, holding every feature, each bound attained by one of them. */
  function BBoxOf(fs: seq<Feature>): (r: Option<BBox>)
    ensures r.Some? <==> |fs| > 0
    ensures r.Some? ==>
              && (forall i :: 0 <= i < |fs| ==> Inside(r.value, fs[i].coordinates))
              && r.value.minX in Xs(fs) && r.value.maxX in Xs(fs)
              && r.value.minY in Ys(fs) && r.value.maxY in Ys(fs)
  {
    if |fs| == 0 then None
    else
      var first := Widen(None, fs[0]);
      var rest := fs[1..];
      FoldBBoxSplits(first, rest);
      FoldMinBounds(first.minX, Xs(rest));
      FoldMinBounds(first.minY, Ys(rest));
      FoldMaxBounds(first.maxX, Xs(rest));
      FoldMaxBounds(first.maxY, Ys(rest));
      assert Xs(rest) == Xs(fs)[1..] && Ys(rest) == Ys(fs)[1..];
      assert forall i :: 1 <= i < |fs| ==> fs[i] == rest[i - 1];
      FoldBBox(None, fs)
  }

  /** A single point yields the degenerate box on that point. */
  lemma SinglePointBox(f: Feature)
    ensures BBoxOf([f]) == Some(BBox(f.coordinates.x, f.coordinates.y, f.coordinates.x, f.coordinates.y))
  {
  }

  /** The `fitBounds` call: south-west and north-east corners and options. */
  datatype FitRequest = FitRequest(sw: Position, ne: Position, padding: nat, duration: nat)

  const FitPadding: nat := 40
  const FitDuration: nat := 500

  /** `fitTo`: nothing without features or without a map; otherwise the
      smallest box holding every feature, with padding 40 and duration 500. */
  function FitTo(fc: FeatureCollection, hasMap: bool): (r: Option<FitRequest>)
    ensures r.None? <==> |fc.features| == 0 || !hasMap
    ensures r.Some? ==>
              && r.value.padding == 40 && r.value.duration == 500
              && (forall i :: 0 <= i < |fc.features| ==>
                    var p := fc.features[i].coordinates;
                    r.value.sw.x <= p.x <= r.value.ne.x && r.value.sw.y <= p.y <= r.value.ne.y)
              && r.value.sw.x in Xs(fc.features) && r.value.ne.x in Xs(fc.features)
              && r.value.sw.y in Ys(fc.features) && r.value.ne.y in Ys(fc.features)
  {
    if |fc.features| == 0 || !hasMap then None
    else
      match BBoxOf(fc.features)
      case Some(b) => Some(FitRequest(Position(b.minX, b.minY), Position(b.maxX, b.maxY), FitPadding, FitDuration))
      case None => None
  }

  /** The two values of a layer's `visibility` layout property. */
  datatype Visibility = Visible | Hidden

  /** The part of the map the page touches: the "pts" source's data, the
      "pts-heat" visibility (absent when never set), the "pts" circle opacity
      and the "pts-heat" intensity. The source is absent until the map has
      loaded. */
  datatype MapLayers = MapLayers(source: Option<FeatureCollection>, heatVisibility: Option<Visibility>,
                                 circleOpacity: real, heatIntensity: real)

  const InitialDate: string := "2020-08-15"
  const InitialCircleOpacity: real := 0.85
  const DimmedCircleOpacity: real := 0.15
  const InitialIntensity: real := 1.0

  /** The date sent for a date-picker value: a cleared picker falls back to
      the date of the initial load. */
  function DateParam(input: string): (r: string)
    ensures r != ""
    ensures input != "" ==> r == input
    ensures input == "" ==> r == InitialDate
  {
    if input == "" then InitialDate else input
  }

  /** The result of the map's load handler and of `reloadFor`: the map and
      the fit it requested. */
  datatype Loaded = Loaded(layers: MapLayers, fit: Option<FitRequest>)

  /** The map before (or without) a successful load handler: no source and
      no layers. The paint fields of layers that do not exist carry no
      meaning. */
  const Unloaded: MapLayers := MapLayers(None, None, InitialCircleOpacity, InitialIntensity)

  /** The load handler. The response is `None` when the `/api/heatmap`
      request rejects (a network error or a non-2xx status) or its body has
      no `points` list: the handler then stops before adding the source and
      the layers, and requests no fit. Otherwise the source holds the initial
      response, circles are at 0.85, the heatmap is hidden at intensity 1,
      and the map is fitted. */
  function OnLoad(response: Option<seq<Pt>>): (r: Loaded)
    ensures response.None? ==> r.layers.source.None? && r.layers.heatVisibility.None? && r.fit.None?
    ensures response.Some? ==>
              && r.layers.source == Some(ToFeatureCollection(response.value))
              && r.layers.heatVisibility == Some(Hidden)
              && r.layers.circleOpacity == InitialCircleOpacity && r.layers.heatIntensity == InitialIntensity
              && r.fit == FitTo(ToFeatureCollection(response.value), true)
  {
    match response
    case None => Loaded(Unloaded, None)
    case Some(points) =>
      var fc := ToFeatureCollection(points);
      Loaded(MapLayers(Some(fc), Some(Hidden), InitialCircleOpacity, InitialIntensity), FitTo(fc, true))
  }

  /** `reloadFor`: without a map nothing happens. A failed request (`None`,
      as for the load handler) stops before the source is touched: the old
      data stays and no fit is requested. Otherwise an existing source's data
      is replaced by the response, a missing source is left missing, and the
      map is fitted to the response. */
  function ReloadFor(current: Option<MapLayers>, response: Option<seq<Pt>>): (r: Option<Loaded>)
    ensures r.None? <==> current.None?
    ensures r.Some? && response.None? ==> r.value.layers == current.value && r.value.fit.None?
    ensures r.Some? && response.Some? ==>
              && r.value.layers.(source := current.value.source) == current.value
              && (current.value.source.Some? ==> r.value.layers.source == Some(ToFeatureCollection(response.value)))
              && (current.value.source.None? ==> r.value.layers.source.None?)
              && r.value.fit == FitTo(ToFeatureCollection(response.value), true)
  {
    match current
    case None => None
    case Some(m) =>
      match response
      case None => Some(Loaded(m, None))
      case Some(points) =>
        var fc := ToFeatureCollection(points);
        var m' := if m.source.Some? then m.(source := Some(fc)) else m;
        Some(Loaded(m', FitTo(fc, true)))
  }

  /** Replacement, not merge: after a reload the data depends only on the
      response, whatever points the source held before. */
  lemma ReloadReplaces(m1: MapLayers, m2: MapLayers, points: seq<Pt>)
    requires m1.source.Some? && m2.source.Some?
    ensures ReloadFor(Some(m1), Some(points)).value.layers.source == ReloadFor(Some(m2), Some(points)).value.layers.source
    ensures ToPoints(ReloadFor(Some(m1), Some(points)).value.layers.source.value) == points
  {
    FeatureRoundTrip(points);
  }

  /** The circle opacity that goes with a heatmap visibility. */
  function CircleOpacityFor(v: Visibility): real {
    if v == Visible then DimmedCircleOpacity else InitialCircleOpacity
  }

  /** `toggleHeatmap`: an absent visibility counts as hidden; the heatmap is
      shown iff it was hidden, and the circles are dimmed to 0.15 iff it is
      now shown, else 0.85. Before a successful load (`source == None`) the
      `pts-heat` and `pts` layers do not exist and MapLibre's setters change
      nothing; the fields set here then stand for no layer, and the load
      handler overwrites them. */
  function ToggleHeatmap(m: MapLayers): (r: MapLayers)
    ensures r.heatVisibility.Some?
    ensures r.heatVisibility == Some(Visible) <==> m.heatVisibility != Some(Visible)
    ensures r.circleOpacity == 0.15 <==> r.heatVisibility == Some(Visible)
    ensures r.circleOpacity == 0.15 || r.circleOpacity == 0.85
    ensures r.source == m.source && r.heatIntensity == m.heatIntensity
  {
    var cur := m.heatVisibility.GetOr(Hidden);
    var next := if cur == Hidden then Visible else Hidden;
    m.(heatVisibility := Some(next), circleOpacity := CircleOpacityFor(next))
  }

  /** The visibility is set and the circle opacity matches it. */
  predicate Consistent(m: MapLayers) {
    m.heatVisibility.Some? && m.circleOpacity == CircleOpacityFor(m.heatVisibility.value)
  }

  /** The load handler leaves a consistent map iff its request succeeded. */
  lemma LoadedConsistent(response: Option<seq<Pt>>)
    ensures Consistent(OnLoad(response).layers) <==> response.Some?
  {
  }

  /** Toggling keeps the map consistent, from any state. */
  lemma ToggleConsistent(m: MapLayers)
    ensures Consistent(ToggleHeatmap(m))
  {
  }

  /** Two toggles restore both the visibility and the circle opacity. */
  lemma ToggleHeatmapTwice(m: MapLayers)
    requires Consistent(m)
    ensures ToggleHeatmap(ToggleHeatmap(m)) == m
  {
  }

  /** `setHeatmapIntensity`: the slider value is taken as it is. As for
      `ToggleHeatmap`, before a successful load there is no `pts-heat` layer
      and the value set stands for none. */
  function SetHeatmapIntensity(m: MapLayers, v: real): (r: MapLayers)
    ensures r.heatIntensity == v
    ensures r.(heatIntensity := m.heatIntensity) == m
  {
    m.(heatIntensity := v)
  }

  /** Changing the intensity neither shows nor hides the heatmap. */
  lemma IntensityKeepsToggle(m: MapLayers, v: real)
    ensures ToggleHeatmap(SetHeatmapIntensity(m, v)) == SetHeatmapIntensity(ToggleHeatmap(m), v)
  {
  }
}
