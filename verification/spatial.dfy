/** The PostGIS helpers: statements are built as SQL text with `%s`
    placeholders plus a parameter list, and handed to the database driver.
    A statement is modelled as a sequence of literal pieces and holes, each
    hole naming the value the SQL expects there, and a parameter list whose
    entries name the argument they were taken from. The database is an
    oracle from statements to outcomes. SQL whitespace is normalised to
    single spaces. */
module Spatial {
  import opened Wrappers

  /** Values passed to the driver. */
  datatype Value = Null | Text(text: string) | Num(num: real) | Flag(flag: bool)

  /** Python truthiness: None, "", 0 and False are falsy. */
  predicate ValueTruthy(v: Value) {
    match v
    case Null => false
    case Text(t) => t != ""
    case Num(n) => n != 0.0
    case Flag(b) => b
  }

  /** What a placeholder stands for. In WKT points and in envelopes the
      first coordinate is the longitude. */
  datatype Role =
    | ObservationDate | Lon | Lat | Evi | Ndvi | ThermalAnomaly | LandSurfaceTemp
    | WindSpeed | Elevation | FireOccurred | VegetationTypeId | SeasonId | DataSource
    | MinLon | MinLat | MaxLon | MaxLat | StartDate | EndDate | Radius

  datatype Piece = Lit(text: string) | Hole(role: Role)

  datatype Param = Param(role: Role, value: Value)

  datatype Statement = Statement(pieces: seq<Piece>, params: seq<Param>)

  /** The roles of the holes, left to right. */
  function Holes(pieces: seq<Piece>): (r: seq<Role>)
    ensures |r| <= |pieces|
    decreases |pieces|
  {
    if |pieces| == 0 then []
    else match pieces[0]
      case Lit(_) => Holes(pieces[1..])
      case Hole(role) => [role] + Holes(pieces[1..])
  }

  lemma {:induction false} HolesAppend(a: seq<Piece>, b: seq<Piece>)
    ensures Holes(a + b) == Holes(a) + Holes(b)
    decreases |a|
  {
    if |a| == 0 {
      assert a + b == b;
    } else {
      assert (a + b)[0] == a[0];
      assert (a + b)[1..] == a[1..] + b;
      HolesAppend(a[1..], b);
    }
  }

  function Roles(params: seq<Param>): (r: seq<Role>)
    ensures |r| == |params| && forall i :: 0 <= i < |params| ==> r[i] == params[i].role
  {
    seq(|params|, i requires 0 <= i < |params| => params[i].role)
  }

  /** Every placeholder receives the parameter meant for it, in order. */
  predicate WellBound(st: Statement) {
    Holes(st.pieces) == Roles(st.params)
  }

  /** The SQL text the driver receives. */
  function Render(pieces: seq<Piece>): string
    decreases |pieces|
  {
    if |pieces| == 0 then ""
    else match pieces[0]
      case Lit(t) => t + Render(pieces[1..])
      case Hole(_) => "%s" + Render(pieces[1..])
  }

  /** The number of `%s` placeholders the driver finds in a text. */
  function CountPlaceholders(s: string): nat
    decreases |s|
  {
    if |s| < 2 then 0
    else if s[0] == '%' && s[1] == 's' then 1 + CountPlaceholders(s[2..])
    else CountPlaceholders(s[1..])
  }

  /** Text with no `%`, which the driver passes through unchanged. */
  predicate Plain(t: string) {
    forall j :: 0 <= j < |t| ==> t[j] != '%'
  }

  lemma {:induction false} CountSkipsPlainText(a: string, b: string)
    requires Plain(a)
    ensures CountPlaceholders(a + b) == CountPlaceholders(b)
    decreases |a|
  {
    if |a| > 0 {
      assert (a + b)[0] == a[0] && a[0] != '%';
      assert (a + b)[1..] == a[1..] + b;
      assert Plain(a[1..]) by {
        forall j | 0 <= j < |a[1..]| ensures a[1..][j] != '%' {
          assert a[1..][j] == a[j + 1];
        }
      }
      CountSkipsPlainText(a[1..], b);
      if |a + b| >= 2 {
        assert CountPlaceholders(a + b) == CountPlaceholders((a + b)[1..]);
      }
    } else {
      assert a + b == b;
    }
  }

  lemma PlainAppend(a: string, b: string)
    requires Plain(a) && Plain(b)
    ensures Plain(a + b)
  {
    forall j | 0 <= j < |a + b|
      ensures (a + b)[j] != '%'
    {
      if j >= |a| {
        assert (a + b)[j] == b[j - |a|];
      }
    }
  }

  /** Every literal piece is plain text. */
  predicate PlainLiterals(pieces: seq<Piece>) {
    forall i :: 0 <= i < |pieces| && pieces[i].Lit? ==> Plain(pieces[i].text)
  }

  lemma PlainLiteralsAppend(a: seq<Piece>, b: seq<Piece>)
    ensures PlainLiterals(a) && PlainLiterals(b) ==> PlainLiterals(a + b)
  {
    if PlainLiterals(a) && PlainLiterals(b) {
      forall i | 0 <= i < |a + b| && (a + b)[i].Lit?
        ensures Plain((a + b)[i].text)
      {
        if i >= |a| {
          assert (a + b)[i] == b[i - |a|];
        }
      }
    }
  }

  /** Every fragment of a template is plain text. */
  predicate AllPlain(lits: seq<string>) {
    forall i :: 0 <= i < |lits| ==> Plain(lits[i])
  }

  /** With no `%` in the literal text, the rendered SQL has exactly one
      placeholder per hole. */
  lemma {:induction false} RenderedPlaceholders(pieces: seq<Piece>)
    requires PlainLiterals(pieces)
    ensures CountPlaceholders(Render(pieces)) == |Holes(pieces)|
    decreases |pieces|
  {
    if |pieces| > 0 {
      assert PlainLiterals(pieces[1..]) by {
        forall i | 0 <= i < |pieces[1..]| && pieces[1..][i].Lit?
          ensures Plain(pieces[1..][i].text)
        {
          assert pieces[1..][i] == pieces[i + 1];
        }
      }
      RenderedPlaceholders(pieces[1..]);
      match pieces[0]
      case Lit(t) =>
        CountSkipsPlainText(t, Render(pieces[1..]));
      case Hole(_) =>
        assert ("%s" + Render(pieces[1..]))[2..] == Render(pieces[1..]);
    }
  }

  /** A well-bound statement with plain literals has as many placeholders as
      parameters. */
  lemma PlaceholdersMatchParams(st: Statement)
    requires WellBound(st) && PlainLiterals(st.pieces)
    ensures CountPlaceholders(Render(st.pieces)) == |st.params|
  {
    RenderedPlaceholders(st.pieces);
  }

  /** A statement from pieces whose holes take the given parameters in
      order; its text then carries one `%s` per parameter. */
  function Bind(pieces: seq<Piece>, params: seq<Param>): (st: Statement)
    requires Holes(pieces) == Roles(params) && PlainLiterals(pieces)
    ensures st.pieces == pieces && st.params == params
    ensures WellBound(st) && CountPlaceholders(Render(st.pieces)) == |st.params|
  {
    var st := Statement(pieces, params);
    PlaceholdersMatchParams(st);
    st
  }

  /** A SQL template: the literal fragments between consecutive
      placeholders, one more fragment than placeholders. */
  function Template(lits: seq<string>, roles: seq<Role>): (r: seq<Piece>)
    requires |lits| == |roles| + 1
    ensures Holes(r) == roles
    ensures |r| > 0 && r[|r| - 1] == Lit(lits[|lits| - 1])
    ensures AllPlain(lits) ==> PlainLiterals(r)
    decreases |roles|
  {
    if |roles| == 0 then [Lit(lits[0])]
    else
      var rest := Template(lits[1..], roles[1..]);
      HolesAppend([Lit(lits[0]), Hole(roles[0])], rest);
      PlainLiteralsAppend([Lit(lits[0]), Hole(roles[0])], rest);
      assert forall i :: 1 <= i < |lits| ==> lits[i] == lits[1..][i - 1];
      [Lit(lits[0]), Hole(roles[0])] + rest
  }

  const GeogPrefix: string := "ST_GeogFromText('POINT("
  const GeogSuffix: string := ")')"

  /** `create_point`: the WKT point text, longitude first. The numbers
      arrive already formatted. */
  function CreatePoint(latitude: string, longitude: string): (r: string)
    ensures |r| == |GeogPrefix| + |longitude| + 1 + |latitude| + |GeogSuffix|
    ensures r[..|GeogPrefix|] == GeogPrefix
    ensures r[|GeogPrefix|..|GeogPrefix| + |longitude|] == longitude
    ensures r[|GeogPrefix| + |longitude|] == ' '
    ensures r[|GeogPrefix| + |longitude| + 1..|r| - |GeogSuffix|] == latitude
    ensures r[|r| - |GeogSuffix|..] == GeogSuffix
  {
    GeogPrefix + longitude + " " + latitude + GeogSuffix
  }

  /** The index of the first space, if any. */
  function FirstSpace(s: string): (r: Option<nat>)
    ensures r.Some? ==> r.value < |s| && s[r.value] == ' ' && forall j :: 0 <= j < r.value ==> s[j] != ' '
    ensures r.None? ==> forall j :: 0 <= j < |s| ==> s[j] != ' '
    decreases |s|
  {
    if |s| == 0 then None
    else if s[0] == ' ' then Some(0)
    else match FirstSpace(s[1..])
      case None => None
      case Some(k) => Some(k + 1)
  }

  /** Reads a WKT point text back: `(latitude, longitude)`, split at the
      first space. */
  function ParsePoint(s: string): Option<(string, string)> {
    if |s| < |GeogPrefix| + |GeogSuffix| || s[..|GeogPrefix|] != GeogPrefix || s[|s| - |GeogSuffix|..] != GeogSuffix
    then None
    else
      var body := s[|GeogPrefix|..|s| - |GeogSuffix|];
      match FirstSpace(body)
      case None => None
      case Some(k) => Some((body[k + 1..], body[..k]))
  }

  /** The point text is read back as the same pair, so the two coordinates
      are never swapped, whenever the longitude text has no space. */
  lemma PointRoundTrip(latitude: string, longitude: string)
    requires forall j :: 0 <= j < |longitude| ==> longitude[j] != ' '
    ensures ParsePoint(CreatePoint(latitude, longitude)) == Some((latitude, longitude))
  {
    var s := CreatePoint(latitude, longitude);
    var body := s[|GeogPrefix|..|s| - |GeogSuffix|];
    assert body == longitude + " " + latitude;
    assert body[|longitude|] == ' ';
    assert forall j :: 0 <= j < |longitude| ==> body[j] == longitude[j];
    assert body[|longitude| + 1..] == latitude && body[..|longitude|] == longitude;
  }

  /** The columns of one observation. */
  datatype Observation = Observation(
    date: Value, lat: real, lon: real, evi: Value, ndvi: Value, thermalAnomaly: Value,
    landSurfaceTemp: Value, windSpeed: Value, elevation: Value, fireOccurred: Value,
    vegetationTypeId: Value, seasonId: Value, dataSource: Value)

  /** The defaults of `insert_observation`'s optional arguments. */
  function NewObservation(date: Value, lat: real, lon: real): Observation {
    Observation(date, lat, lon, Null, Null, Null, Null, Null, Null, Flag(false), Null, Null, Null)
  }

  const InsertHead: string :=
    "INSERT INTO wildfire_observations ( "
    + "observation_date, location, evi, ndvi, "
    + "thermal_anomaly, land_surface_temp, "

  const InsertTail: string :=
    "wind_speed, elevation, fire_occurred, "
    + "vegetation_type_id, season_id, "
    + "data_source ) VALUES ( "

  const InsertColumns: string := InsertHead + InsertTail

  const InsertFragments: seq<string> := [
    InsertColumns, ", ST_GeogFromText('POINT(", " ", ")'), ",
    ", ", ", ", ", ", ", ", ", ", ", ", ", ", ", ", ", ", " ) RETURNING observation_id;"]

  /** The columns as the insert's placeholders expect them; the location
      is written `POINT(lon lat)`. */
  const InsertRoles: seq<Role> := [
    ObservationDate, Lon, Lat, Evi, Ndvi, ThermalAnomaly, LandSurfaceTemp,
    WindSpeed, Elevation, FireOccurred, VegetationTypeId, SeasonId, DataSource]

  lemma InsertHeadPlain()
    ensures Plain(InsertHead)
  {
    var a, b, c := "INSERT INTO wildfire_observations ( ", "observation_date, location, evi, ndvi, ",
                   "thermal_anomaly, land_surface_temp, ";
    assert Plain(a);
    assert Plain(b);
    assert Plain(c);
    PlainAppend(a, b);
    PlainAppend(a + b, c);
  }

  lemma InsertTailPlain()
    ensures Plain(InsertTail)
  {
    var d, e, f := "wind_speed, elevation, fire_occurred, ", "vegetation_type_id, season_id, ",
                   "data_source ) VALUES ( ";
    assert Plain(d);
    assert Plain(e);
    assert Plain(f);
    PlainAppend(d, e);
    PlainAppend(d + e, f);
  }

  lemma InsertFragmentsPlain()
    ensures AllPlain(InsertFragments)
  {
    InsertHeadPlain();
    InsertTailPlain();
    PlainAppend(InsertHead, InsertTail);
  }

  function InsertPieces(): (r: seq<Piece>)
    ensures Holes(r) == InsertRoles
    ensures PlainLiterals(r)
  {
    InsertFragmentsPlain();
    Template(InsertFragments, InsertRoles)
  }

  /** The insert's arguments, in the order they are passed. */
  function InsertParams(o: Observation): (r: seq<Param>)
    ensures Roles(r) == InsertRoles
    ensures r[1] == Param(Lon, Num(o.lon)) && r[2] == Param(Lat, Num(o.lat))
  {
    var params := [
      Param(ObservationDate, o.date), Param(Lon, Num(o.lon)), Param(Lat, Num(o.lat)), Param(Evi, o.evi),
      Param(Ndvi, o.ndvi), Param(ThermalAnomaly, o.thermalAnomaly), Param(LandSurfaceTemp, o.landSurfaceTemp),
      Param(WindSpeed, o.windSpeed), Param(Elevation, o.elevation), Param(FireOccurred, o.fireOccurred),
      Param(VegetationTypeId, o.vegetationTypeId), Param(SeasonId, o.seasonId), Param(DataSource, o.dataSource)];
    assert params[1] == Param(Lon, Num(o.lon)) && params[2] == Param(Lat, Num(o.lat));
    params
  }

  /** The insert statement: thirteen placeholders, and the thirteen
      arguments bound in the order the placeholders expect, the longitude
      before the latitude. */
  function InsertStatement(o: Observation): (st: Statement)
    ensures WellBound(st) && PlainLiterals(st.pieces)
    ensures |st.params| == |InsertRoles| == 13
    ensures st.params[1] == Param(Lon, Num(o.lon)) && st.params[2] == Param(Lat, Num(o.lat))
    ensures CountPlaceholders(Render(st.pieces)) == |st.params|
  {
    Bind(InsertPieces(), InsertParams(o))
  }

  /** What executing an insert yields: a driver error, or `fetchone()`. */
  datatype InsertOutcome = InsertFailed | Fetched(row: Option<seq<Value>>)

  /** `insert_observation`: the first column of the returned row; None when
      no row (or an empty one) comes back or the database raises. */
  function InsertObservation(o: Observation, db: Statement -> InsertOutcome): (r: Option<Value>)
    ensures var out := db(InsertStatement(o));
            && (out.InsertFailed? ==> r.None?)
            && (out.Fetched? && out.row.Some? && |out.row.value| > 0 ==> r == Some(out.row.value[0]))
            && (out.Fetched? && (out.row.None? || |out.row.value| == 0) ==> r.None?)
  {
    match db(InsertStatement(o))
    case InsertFailed => None
    case Fetched(row) =>
      if row.Some? && |row.value| > 0 then Some(row.value[0]) else None
  }

  /** The optional date filters, start before end; a falsy date adds
      neither a clause nor a parameter. */
  const StartClause: string := " AND observation_date >= "
  const EndClause: string := " AND observation_date <= "

  /** One optional date clause: nothing for a falsy date, otherwise the
      clause text and one placeholder bound to the date. */
  function DateClause(clause: string, role: Role, date: Value): (r: Statement)
    requires Plain(clause)
    ensures WellBound(r) && PlainLiterals(r.pieces)
    ensures ValueTruthy(date) ==> r.params == [Param(role, date)]
    ensures !ValueTruthy(date) ==> r.params == [] && r.pieces == []
  {
    if ValueTruthy(date) then
      assert AllPlain([clause, ""]);
      Statement(Template([clause, ""], [role]), [Param(role, date)])
    else Statement([], [])
  }

  function DateFilters(startDate: Value, endDate: Value): (r: Statement)
    ensures WellBound(r) && PlainLiterals(r.pieces)
    ensures CountPlaceholders(Render(r.pieces)) == |r.params|
    ensures |r.params| == (if ValueTruthy(startDate) then 1 else 0) + (if ValueTruthy(endDate) then 1 else 0)
    ensures ValueTruthy(startDate) ==> r.params[0] == Param(StartDate, startDate)
    ensures ValueTruthy(endDate) ==> r.params[|r.params| - 1] == Param(EndDate, endDate)
  {
    assert Plain(StartClause) && Plain(EndClause);
    var r := Concat(DateClause(StartClause, StartDate, startDate), DateClause(EndClause, EndDate, endDate));
    PlaceholdersMatchParams(r);
    r
  }

  /** Appending one statement's text and parameters to another's. */
  function Concat(a: Statement, b: Statement): (r: Statement)
    ensures r.pieces == a.pieces + b.pieces && r.params == a.params + b.params
    ensures WellBound(a) && WellBound(b) ==> WellBound(r)
    ensures PlainLiterals(a.pieces) && PlainLiterals(b.pieces) ==> PlainLiterals(r.pieces)
  {
    HolesAppend(a.pieces, b.pieces);
    PlainLiteralsAppend(a.pieces, b.pieces);
    assert Roles(a.params + b.params) == Roles(a.params) + Roles(b.params);
    Statement(a.pieces + b.pieces, a.params + b.params)
  }

  const ColumnsHead: string :=
    "SELECT observation_id, observation_date, "
    + "ST_Y(location::geometry) as latitude, "
    + "ST_X(location::geometry) as longitude, "

  const ColumnsTail: string :=
    "evi, ndvi, thermal_anomaly, "
    + "land_surface_temp, wind_speed, "
    + "elevation, fire_occurred"

  const ObservationColumns: string := ColumnsHead + ColumnsTail

  lemma ColumnsHeadPlain()
    ensures Plain(ColumnsHead)
  {
    var a, b, c := "SELECT observation_id, observation_date, ", "ST_Y(location::geometry) as latitude, ",
                   "ST_X(location::geometry) as longitude, ";
    assert Plain(a);
    assert Plain(b);
    assert Plain(c);
    PlainAppend(a, b);
    PlainAppend(a + b, c);
  }

  lemma ColumnsTailPlain()
    ensures Plain(ColumnsTail)
  {
    var d, e, f := "evi, ndvi, thermal_anomaly, ", "land_surface_temp, wind_speed, ", "elevation, fire_occurred";
    assert Plain(d);
    assert Plain(e);
    assert Plain(f);
    PlainAppend(d, e);
    PlainAppend(d + e, f);
  }

  lemma ObservationColumnsPlain()
    ensures Plain(ObservationColumns)
  {
    ColumnsHeadPlain();
    ColumnsTailPlain();
    PlainAppend(ColumnsHead, ColumnsTail);
  }

  const BBoxFrom: string := " FROM wildfire_observations " + "WHERE location && ST_MakeEnvelope("

  const BBoxFragments: seq<string> := [ObservationColumns + BBoxFrom, ", ", ", ", ", ", ", 4326)::geography"]

  lemma BBoxFragmentsPlain()
    ensures AllPlain(BBoxFragments)
  {
    ObservationColumnsPlain();
    var a, b := " FROM wildfire_observations ", "WHERE location && ST_MakeEnvelope(";
    assert Plain(a) && Plain(b);
    PlainAppend(a, b);
    PlainAppend(ObservationColumns, BBoxFrom);
    assert Plain(", 4326)::geography");
  }

  /** The bounding-box query: the envelope's xmin, ymin, xmax, ymax are
      bound to min_lon, min_lat, max_lon, max_lat, then the date filters. */
  function BBoxStatement(minLat: real, minLon: real, maxLat: real, maxLon: real,
                         startDate: Value, endDate: Value): (st: Statement)
    ensures WellBound(st) && PlainLiterals(st.pieces)
    ensures CountPlaceholders(Render(st.pieces)) == |st.params|
    ensures |st.params| >= 4
    ensures st.params[..4] == [Param(MinLon, Num(minLon)), Param(MinLat, Num(minLat)),
                               Param(MaxLon, Num(maxLon)), Param(MaxLat, Num(maxLat))]
    ensures st.params[4..] == DateFilters(startDate, endDate).params
  {
    var params := [Param(MinLon, Num(minLon)), Param(MinLat, Num(minLat)), Param(MaxLon, Num(maxLon)), Param(MaxLat, Num(maxLat))];
    assert Roles(params) == [MinLon, MinLat, MaxLon, MaxLat];
    BBoxFragmentsPlain();
    var base := Statement(Template(BBoxFragments, [MinLon, MinLat, MaxLon, MaxLat]), params);
    var st := Concat(base, DateFilters(startDate, endDate));
    PlaceholdersMatchParams(st);
    st
  }

  const OrderByDistance: string := " ORDER BY distance_meters"

  const NearDistance: string := ", ST_Distance(location, " + "ST_GeogFromText('POINT("

  const NearWithin: string :=
    ")')) as distance_meters " + "FROM wildfire_observations "
    + "WHERE ST_DWithin(location, " + "ST_GeogFromText('POINT("

  const NearPointFragments: seq<string> := [ObservationColumns + NearDistance, " ", NearWithin, " ", ")'), ", ")"]

  lemma NearPointFragmentsPlain()
    ensures AllPlain(NearPointFragments)
  {
    ObservationColumnsPlain();
    var a, b := ", ST_Distance(location, ", "ST_GeogFromText('POINT(";
    assert Plain(a) && Plain(b);
    PlainAppend(a, b);
    PlainAppend(ObservationColumns, NearDistance);
    var c, d, e := ")')) as distance_meters ", "FROM wildfire_observations ", "WHERE ST_DWithin(location, ";
    assert Plain(c) && Plain(d) && Plain(e);
    PlainAppend(c, d);
    PlainAppend(c + d, e);
    PlainAppend(c + d + e, b);
    assert Plain(")'), ");
  }

  /** The near-point query: `[lon, lat, lon, lat, radius]`, then the date
      filters, then the ordering clause last. */
  function NearPointStatement(lat: real, lon: real, radius: real, startDate: Value, endDate: Value): (st: Statement)
    ensures WellBound(st) && PlainLiterals(st.pieces)
    ensures CountPlaceholders(Render(st.pieces)) == |st.params|
    ensures |st.params| >= 5
    ensures st.params[..5] == [Param(Lon, Num(lon)), Param(Lat, Num(lat)), Param(Lon, Num(lon)),
                               Param(Lat, Num(lat)), Param(Radius, Num(radius))]
    ensures st.params[5..] == DateFilters(startDate, endDate).params
    ensures |st.pieces| > 0 && st.pieces[|st.pieces| - 1] == Lit(OrderByDistance)
  {
    var params := [Param(Lon, Num(lon)), Param(Lat, Num(lat)), Param(Lon, Num(lon)), Param(Lat, Num(lat)), Param(Radius, Num(radius))];
    assert Roles(params) == [Lon, Lat, Lon, Lat, Radius];
    NearPointFragmentsPlain();
    var base := Statement(Template(NearPointFragments, [Lon, Lat, Lon, Lat, Radius]), params);
    var filters := DateFilters(startDate, endDate);
    var filtered := Concat(base, filters);
    var st := Concat(filtered, OrderBy());
    assert st.params == params + filters.params;
    assert st.params[..5] == params && st.params[5..] == filters.params;
    PlaceholdersMatchParams(st);
    st
  }

  /** The closing ordering clause: plain text and no placeholder. */
  function OrderBy(): (r: Statement)
    ensures r.pieces == [Lit(OrderByDistance)] && r.params == []
    ensures WellBound(r) && PlainLiterals(r.pieces)
  {
    assert Plain(OrderByDistance);
    Statement([Lit(OrderByDistance)], [])
  }

  /** A returned record, kept opaque. */
  datatype Record = Record(columns: seq<Value>)

  datatype QueryOutcome = QueryFailed | Rows(rows: seq<Record>)

  /** Running a query: `fetchall()`, or the empty list when the database
      raises. */
  function RunQuery(st: Statement, db: Statement -> QueryOutcome): (r: seq<Record>)
    ensures db(st).QueryFailed? ==> r == []
    ensures db(st).Rows? ==> r == db(st).rows
  {
    match db(st)
    case QueryFailed => []
    case Rows(rows) => rows
  }

  function QueryByBBox(minLat: real, minLon: real, maxLat: real, maxLon: real, startDate: Value, endDate: Value,
                       db: Statement -> QueryOutcome): (r: seq<Record>)
    ensures var out := db(BBoxStatement(minLat, minLon, maxLat, maxLon, startDate, endDate));
            r == if out.QueryFailed? then [] else out.rows
  {
    RunQuery(BBoxStatement(minLat, minLon, maxLat, maxLon, startDate, endDate), db)
  }

  function QueryNearPoint(lat: real, lon: real, radius: real, startDate: Value, endDate: Value,
                          db: Statement -> QueryOutcome): (r: seq<Record>)
    ensures var out := db(NearPointStatement(lat, lon, radius, startDate, endDate));
            r == if out.QueryFailed? then [] else out.rows
  {
    RunQuery(NearPointStatement(lat, lon, radius, startDate, endDate), db)
  }
}
