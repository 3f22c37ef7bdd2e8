/** Shape annotations drawn on the risk map. Positions are percentages of the
    map surface's rendered box; the conversion from pixels is not modelled and
    positions arrive already converted. */
module Annotations {
  import opened Wrappers
  import opened Text
  import opened Seqs

  /** The four tools of the map toolbar. */
  datatype Tool = Select | Pan | DrawCircle | DrawRectangle

  /** The source's shape type also admits "line", but no tool creates one. */
  datatype ShapeKind = Circle | Rectangle

  /** The optional fields are absent until a cursor move fills them in. */
  datatype Coords = Coords(x: real, y: real, x2: Option<real>, y2: Option<real>, radius: Option<real>)

  datatype Shape = Shape(id: string, kind: ShapeKind, coords: Coords, color: string)

  /** Fill colour of every drawn shape. */
  const DraftColor: string := "rgba(59, 130, 246, 0.5)"

  /** The kind a draw tool produces (`mapTool.split("-")[1]`); `None` for the
      tools that do not start with "draw-". */
  function DrawKind(t: Tool): (r: Option<ShapeKind>)
    ensures r.Some? <==> t == DrawCircle || t == DrawRectangle
    ensures r == Some(Circle) <==> t == DrawCircle
    ensures r == Some(Rectangle) <==> t == DrawRectangle
  {
    match t
    case DrawCircle => Some(Circle)
    case DrawRectangle => Some(Rectangle)
    case _ => None
  }

  /** The id `shape-${Date.now()}`: the clock reading is an input. */
  function ShapeId(now: nat): string {
    "shape-" + NatToString(now)
  }

  /** A fresh draft anchored at the cursor, with no extent yet. */
  function StartDraft(kind: ShapeKind, now: nat, x: real, y: real): (d: Shape)
    ensures d.kind == kind && d.coords.x == x && d.coords.y == y
    ensures d.coords.x2.None? && d.coords.y2.None? && d.coords.radius.None?
  {
    Shape(ShapeId(now), kind, Coords(x, y, None, None, None), DraftColor)
  }

  /** `d` is the Euclidean distance between the two points; this is how
      `Math.sqrt` of the sum of squares is characterised without a square
      root. */
  predicate IsDistance(d: real, ax: real, ay: real, px: real, py: real) {
    d >= 0.0 && d * d == (px - ax) * (px - ax) + (py - ay) * (py - ay)
  }

  /** Updates a draft for a cursor move to (x2, y2): a rectangle records the
      opposite corner, a circle records the distance from its anchor; the
      anchor, id, kind and colour are kept. */
  function ExtendDraft(d: Shape, x2: real, y2: real, distance: real): (r: Shape)
    requires d.kind == Circle ==> IsDistance(distance, d.coords.x, d.coords.y, x2, y2)
    ensures r.id == d.id && r.kind == d.kind && r.color == d.color
    ensures r.coords.x == d.coords.x && r.coords.y == d.coords.y
    ensures d.kind == Rectangle ==>
              r.coords.x2 == Some(x2) && r.coords.y2 == Some(y2) && r.coords.radius == d.coords.radius
    ensures d.kind == Circle ==>
              && r.coords.x2 == d.coords.x2 && r.coords.y2 == d.coords.y2
              && r.coords.radius.Some?
              && IsDistance(r.coords.radius.value, d.coords.x, d.coords.y, x2, y2)
  {
    match d.kind
    case Rectangle => d.(coords := d.coords.(x2 := Some(x2), y2 := Some(y2)))
    case Circle => d.(coords := d.coords.(radius := Some(distance)))
  }

  /** Squaring is strictly increasing on the non-negative reals. */
  lemma SquareStrictlyIncreasing(a: real, b: real)
    requires 0.0 <= a < b
    ensures a * a < b * b
  {
    calc {
      a * a;
    <= { assert a * (b - a) >= 0.0; }
      a * b;
    <  { assert (b - a) * b > 0.0; }
      b * b;
    }
  }

  /** Any two distances between the same points agree, so the radius is
      determined by the anchor and the cursor. */
  lemma DistanceUnique(d1: real, d2: real, ax: real, ay: real, px: real, py: real)
    requires IsDistance(d1, ax, ay, px, py) && IsDistance(d2, ax, ay, px, py)
    ensures d1 == d2
  {
    if d1 < d2 {
      SquareStrictlyIncreasing(d1, d2);
    } else if d2 < d1 {
      SquareStrictlyIncreasing(d2, d1);
    }
  }

  /** The annotation list's delete button: drops every shape with that id. */
  function DeleteShape(shapes: seq<Shape>, id: string): (r: seq<Shape>)
    ensures forall s :: s in r <==> s in shapes && s.id != id
    ensures forall s :: multiset(r)[s] == if s.id != id then multiset(shapes)[s] else 0
    ensures Subsequence(r, shapes)
  {
    FilterIsSubsequence((s: Shape) => s.id != id, shapes);
    Filter((s: Shape) => s.id != id, shapes)
  }

  /** Deleting an id no shape has keeps the list as it is. */
  lemma DeleteUnknown(shapes: seq<Shape>, id: string)
    requires forall i :: 0 <= i < |shapes| ==> shapes[i].id != id
    ensures DeleteShape(shapes, id) == shapes
  {
    FilterAll((s: Shape) => s.id != id, shapes);
  }

  /** A CSS box in surface percentages. */
  datatype Box = Box(left: real, top: real, width: real, height: real)

  function Min(a: real, b: real): real { if a <= b then a else b }
  function Abs(a: real): real { if a < 0.0 then -a else a }

  /** JavaScript truthiness of an optional number: absent and 0 are falsy. */
  predicate TruthyNumber(v: Option<real>) {
    v.Some? && v.value != 0.0
  }

  /** The box a rectangle is rendered in. The renderer skips a rectangle
      unless both `x2` and `y2` are truthy, so a corner exactly on the left
      or top edge (0%) is not drawn. */
  function RectangleBox(s: Shape): (r: Option<Box>)
    requires s.kind == Rectangle
    ensures r.Some? <==> TruthyNumber(s.coords.x2) && TruthyNumber(s.coords.y2)
    ensures r.Some? ==>
              var x2 := s.coords.x2.value;
              var y2 := s.coords.y2.value;
              && r.value.width >= 0.0 && r.value.height >= 0.0
              && (r.value.left == s.coords.x || r.value.left == x2)
              && (r.value.left + r.value.width == s.coords.x || r.value.left + r.value.width == x2)
              && r.value.left <= s.coords.x <= r.value.left + r.value.width
              && r.value.left <= x2 <= r.value.left + r.value.width
              && (r.value.top == s.coords.y || r.value.top == y2)
              && (r.value.top + r.value.height == s.coords.y || r.value.top + r.value.height == y2)
              && r.value.top <= s.coords.y <= r.value.top + r.value.height
              && r.value.top <= y2 <= r.value.top + r.value.height
  {
    if TruthyNumber(s.coords.x2) && TruthyNumber(s.coords.y2) then
      var x2 := s.coords.x2.value;
      var y2 := s.coords.y2.value;
      Some(Box(Min(s.coords.x, x2), Min(s.coords.y, y2), Abs(x2 - s.coords.x), Abs(y2 - s.coords.y)))
    else None
  }

  /** The box a circle is rendered in: centred on the anchor, side twice the
      radius, an absent radius counting as 0. */
  function CircleBox(s: Shape): (r: Box)
    requires s.kind == Circle
    ensures r.width == r.height
    ensures r.left + r.width / 2.0 == s.coords.x && r.top + r.height / 2.0 == s.coords.y
    ensures s.coords.radius.Some? ==> r.width == 2.0 * s.coords.radius.value
    ensures s.coords.radius.None? ==> r.width == 0.0
  {
    var radius := s.coords.radius.GetOr(0.0);
    Box(s.coords.x - radius, s.coords.y - radius, radius * 2.0, radius * 2.0)
  }
}
