/**
 * FAA class B/C/D airspace volumes: GeoJSON parsing into extruded meshes,
 * per-frame packing of the visible volumes into fixed-size vertex buffers,
 * and the decision when to fetch a new area.
 */
module Airspace {
  import opened Wrappers
  import opened Json
  import opened Geometry
  import opened EarClip

  datatype AirspaceVertex = AirspaceVertex(position: Vec3, color: Color)

  datatype AirspaceFeature = AirspaceFeature(name: string, airspaceClass: string, floorFeet: real, ceilingFeet: real,
                                             fillVertices: seq<AirspaceVertex>, edgeVertices: seq<AirspaceVertex>)

  datatype Bounds = Bounds(west: real, south: real, east: real, north: real)

  const AltitudeScale: real := 0.001
  const MinimumHeight: real := 0.5
  const MaxFillVertices: nat := 50000
  const MaxEdgeVertices: nat := 20000

  type Object = map<string, Value>

  // ---------------------------------------------------------------------
  // Parsing
  // ---------------------------------------------------------------------

  /** A JSON number read as `Double`. */
  function Number(v: Value): (r: Option<real>)
    ensures r.Some? <==> v.JInt? || v.JDouble?
  {
    match v
    case JInt(i) => Some(i as real)
    case JDouble(d) => Some(d)
    case _ => None
  }

  /** `parseAltitude(value:unit:)`; `parseFloat` is Swift's `Float(String)`. */
  function ParseAltitude(value: Option<Value>, unit: Option<string>, parseFloat: string -> Option<real>): (r: real)
    ensures value.None? ==> r == 0.0
    ensures value.Some? && value.value.JInt? && unit != Some("FL") ==> r == value.value.i as real
    ensures value.Some? && value.value.JDouble? && unit != Some("FL") ==> r == value.value.d
    ensures value.Some? && !(value.value.JInt? || value.value.JDouble? || value.value.JString?) ==> r == 0.0
    ensures value.Some? && value.value.JString? && parseFloat(value.value.s).None? ==> r == 0.0
  {
    match value
    case None => 0.0
    case Some(v) =>
      var n := if v.JString? then parseFloat(v.s) else Number(v);
      if n.None? then 0.0
      else if unit == Some("FL") then n.value * 100.0
      else n.value
  }

  /** A flight-level altitude is the plain value times 100. */
  lemma FlightLevelFeet(value: Option<Value>, parseFloat: string -> Option<real>)
    ensures ParseAltitude(value, Some("FL"), parseFloat) == 100.0 * ParseAltitude(value, None, parseFloat)
  {
  }

  /** Reads every element with `f`, failing when any element fails, as an `as? [T]` cast does. */
  function CastAll<T>(elems: seq<Value>, f: Value -> Option<T>): (r: Option<seq<T>>)
    ensures r.Some? ==> |r.value| == |elems| && forall k :: 0 <= k < |elems| ==> f(elems[k]) == Some(r.value[k])
    ensures r.None? ==> exists k :: 0 <= k < |elems| && f(elems[k]).None?
  {
    if elems == [] then Some([])
    else
      var init := CastAll(elems[..|elems| - 1], f);
      var last := f(elems[|elems| - 1]);
      if init.None? || last.None? then None
      else Some(init.value + [last.value])
  }

  /** `as? [Double]`. */
  function Position(v: Value): Option<seq<real>>
  {
    if v.JArray? then CastAll(v.elems, Number) else None
  }

  /** `as? [[Double]]`: a ring of positions. */
  function Ring(v: Value): Option<seq<seq<real>>>
  {
    if v.JArray? then CastAll(v.elems, Position) else None
  }

  /** `as? [[[Double]]]`: the rings of a polygon. */
  function Rings(v: Value): Option<seq<seq<seq<real>>>>
  {
    if v.JArray? then CastAll(v.elems, Ring) else None
  }

  /** `as? [[[[Double]]]]`: the polygons of a multipolygon. */
  function Polygons(v: Value): Option<seq<seq<seq<seq<real>>>>>
  {
    if v.JArray? then CastAll(v.elems, Rings) else None
  }

  function StringField(o: Object, key: string): (r: Option<string>)
    ensures r.Some? <==> key in o && o[key].JString?
  {
    if key in o && o[key].JString? then Some(o[key].s) else None
  }

  function ObjectField(o: Object, key: string): (r: Option<Object>)
    ensures r.Some? <==> key in o && o[key].JObject?
  {
    if key in o && o[key].JObject? then Some(o[key].fields) else None
  }

  function Field(o: Object, key: string): Option<Value>
  {
    if key in o then Some(o[key]) else None
  }

  /** `extractCoordinates(from:)`: the outer ring of a Polygon or of a MultiPolygon's first polygon. */
  function ExtractCoordinates(geometry: Object): (r: Option<seq<seq<real>>>)
    ensures r.Some? ==> StringField(geometry, "type") in {Some("Polygon"), Some("MultiPolygon")} && "coordinates" in geometry
    ensures StringField(geometry, "type") == Some("Polygon") && "coordinates" in geometry ==>
      r == (match Rings(geometry["coordinates"])
            case Some(rings) => if rings == [] then None else Some(rings[0])
            case None => None)
    ensures StringField(geometry, "type") == Some("MultiPolygon") && "coordinates" in geometry ==>
      r == (match Polygons(geometry["coordinates"])
            case Some(polys) => if polys == [] || polys[0] == [] then None else Some(polys[0][0])
            case None => None)
  {
    var kind := StringField(geometry, "type");
    if kind.None? || "coordinates" !in geometry then None
    else
      var coordinates := geometry["coordinates"];
      if kind.value == "Polygon" then
        match Rings(coordinates)
        case Some(rings) => if rings == [] then None else Some(rings[0])
        case None => None
      else if kind.value == "MultiPolygon" then
        match Polygons(coordinates)
        case Some(polys) => if polys == [] || polys[0] == [] then None else Some(polys[0][0])
        case None => None
      else None
  }

  /**
   * A Polygon geometry whose rings cast gives its first (outer) ring, holes
   * ignored; a MultiPolygon gives its first polygon's outer ring; a geometry
   * of any other type gives nothing.
   */
  lemma PolygonRing(ring: Value, holes: seq<Value>, rest: seq<Value>, kind: string)
    ensures var g := map["type" := JString("Polygon"), "coordinates" := JArray([ring] + holes)];
      Rings(JArray([ring] + holes)).Some? ==> Ring(ring).Some? && ExtractCoordinates(g) == Ring(ring)
    ensures var g := map["type" := JString("MultiPolygon"), "coordinates" := JArray([JArray([ring] + holes)] + rest)];
      Polygons(JArray([JArray([ring] + holes)] + rest)).Some? ==> Ring(ring).Some? && ExtractCoordinates(g) == Ring(ring)
    ensures kind != "Polygon" && kind != "MultiPolygon" ==>
      ExtractCoordinates(map["type" := JString(kind), "coordinates" := JArray([ring] + holes)]).None?
  {
    var g := map["type" := JString("Polygon"), "coordinates" := JArray([ring] + holes)];
    assert StringField(g, "type") == Some("Polygon");
    var m := map["type" := JString("MultiPolygon"), "coordinates" := JArray([JArray([ring] + holes)] + rest)];
    assert StringField(m, "type") == Some("MultiPolygon");
    var first := JArray([ring] + holes);
    assert ([ring] + holes)[0] == ring;
    if Rings(first).Some? {
      assert Ring(ring) == Some(Rings(first).value[0]);
    }
    if Polygons(JArray([first] + rest)).Some? {
      assert ([first] + rest)[0] == first;
      assert Rings(first) == Some(Polygons(JArray([first] + rest)).value[0]);
    }
    var h := map["type" := JString(kind), "coordinates" := JArray([ring] + holes)];
    assert StringField(h, "type") == Some(kind);
  }

  // ---------------------------------------------------------------------
  // Meshes
  // ---------------------------------------------------------------------

  function FillColor(airClass: string): Color
  {
    if airClass == "B" then Color(0.27, 0.40, 1.0, 0.06)
    else if airClass == "C" then Color(0.60, 0.27, 1.0, 0.06)
    else if airClass == "D" then Color(0.27, 0.67, 1.0, 0.06)
    else Color(0.27, 0.53, 1.0, 0.06)
  }

  function EdgeColor(airClass: string): Color
  {
    if airClass == "B" then Color(0.27, 0.40, 1.0, 0.3)
    else if airClass == "C" then Color(0.60, 0.27, 1.0, 0.3)
    else if airClass == "D" then Color(0.27, 0.67, 1.0, 0.3)
    else Color(0.27, 0.53, 1.0, 0.3)
  }

  function FloorY(floorFeet: real): real { floorFeet * AltitudeScale }

  /** The ceiling height, raised so every volume is at least 0.5 tall. */
  function CeilingY(floorFeet: real, ceilingFeet: real): (y: real)
    ensures y >= FloorY(floorFeet) + MinimumHeight
    ensures y == FloorY(floorFeet) + MinimumHeight || y == ceilingFeet * AltitudeScale
  {
    var raised := FloorY(floorFeet) + MinimumHeight;
    if raised > ceilingFeet * AltitudeScale then raised else ceilingFeet * AltitudeScale
  }

  function At(p: Vec2, y: real, color: Color): AirspaceVertex
  {
    AirspaceVertex(Vec3(p.x, y, p.y), color)
  }

  predicate IndicesIn(tri: seq<nat>, n: nat)
  {
    forall k :: 0 <= k < |tri| ==> tri[k] < n
  }

  /** The floor face: each triangle in its own winding at floor height. */
  function FloorFace(points: seq<Vec2>, tri: seq<nat>, y: real, color: Color): (r: seq<AirspaceVertex>)
    requires IndicesIn(tri, |points|)
    ensures |r| == |tri|
  {
    seq(|tri|, k requires 0 <= k < |tri| => At(points[tri[k]], y, color))
  }

  /** The ceiling face: each triangle with its last two corners swapped. */
  function CeilingFace(points: seq<Vec2>, tri: seq<nat>, y: real, color: Color): (r: seq<AirspaceVertex>)
    requires IndicesIn(tri, |points|) && |tri| % 3 == 0
    ensures |r| == |tri|
  {
    seq(|tri|, k requires 0 <= k < |tri| =>
      var corner := k % 3;
      var base := k - corner;
      At(points[tri[if corner == 0 then base else if corner == 1 then base + 2 else base + 1]], y, color))
  }

  /** The wall of edge i → i+1: triangles (f0, f1, c1) and (f0, c1, c0). */
  function Wall(points: seq<Vec2>, i: nat, floorY: real, ceilingY: real, color: Color): (r: seq<AirspaceVertex>)
    requires i < |points|
    ensures |r| == 6
  {
    var p0 := points[i];
    var p1 := points[(i + 1) % |points|];
    [At(p0, floorY, color), At(p1, floorY, color), At(p1, ceilingY, color),
     At(p0, floorY, color), At(p1, ceilingY, color), At(p0, ceilingY, color)]
  }

  function Walls(points: seq<Vec2>, k: nat, floorY: real, ceilingY: real, color: Color): (r: seq<AirspaceVertex>)
    requires k <= |points|
    ensures |r| == 6 * k
  {
    if k == 0 then [] else Walls(points, k - 1, floorY, ceilingY, color) + Wall(points, k - 1, floorY, ceilingY, color)
  }

  /** The outline of edge i → i+1: floor edge, ceiling edge and the vertical edge at i. */
  function Outline(points: seq<Vec2>, i: nat, floorY: real, ceilingY: real, color: Color): (r: seq<AirspaceVertex>)
    requires i < |points|
    ensures |r| == 6
  {
    var p0 := points[i];
    var p1 := points[(i + 1) % |points|];
    [At(p0, floorY, color), At(p1, floorY, color), At(p0, ceilingY, color),
     At(p1, ceilingY, color), At(p0, floorY, color), At(p0, ceilingY, color)]
  }

  function Outlines(points: seq<Vec2>, k: nat, floorY: real, ceilingY: real, color: Color): (r: seq<AirspaceVertex>)
    requires k <= |points|
    ensures |r| == 6 * k
  {
    if k == 0 then [] else Outlines(points, k - 1, floorY, ceilingY, color) + Outline(points, k - 1, floorY, ceilingY, color)
  }

  /** `buildFillMesh`: floor face, ceiling face, then one wall per polygon edge. */
  function FillMesh(points: seq<Vec2>, tri: seq<nat>, floorY: real, ceilingY: real, color: Color): (r: seq<AirspaceVertex>)
    requires IndicesIn(tri, |points|) && |tri| % 3 == 0
  {
    FloorFace(points, tri, floorY, color) + CeilingFace(points, tri, ceilingY, color) + Walls(points, |points|, floorY, ceilingY, color)
  }

  /** `buildEdgeMesh`: one outline per polygon edge. */
  function EdgeMesh(points: seq<Vec2>, floorY: real, ceilingY: real, color: Color): (r: seq<AirspaceVertex>)
  {
    Outlines(points, |points|, floorY, ceilingY, color)
  }

  /** Mesh sizes: 6 per triangle plus 6 per edge for the fill, 6 per edge for the outline. */
  lemma MeshCounts(points: seq<Vec2>, tri: seq<nat>, floorY: real, ceilingY: real, color: Color)
    requires IndicesIn(tri, |points|) && |tri| % 3 == 0
    ensures |FillMesh(points, tri, floorY, ceilingY, color)| == 6 * (|tri| / 3) + 6 * |points|
    ensures |EdgeMesh(points, floorY, ceilingY, color)| == 6 * |points|
    ensures forall k :: 0 <= k < |tri| ==> FillMesh(points, tri, floorY, ceilingY, color)[k].position.y == floorY
    ensures forall k :: |tri| <= k < 2 * |tri| ==> FillMesh(points, tri, floorY, ceilingY, color)[k].position.y == ceilingY
  {
  }

  // ---------------------------------------------------------------------
  // Building features
  // ---------------------------------------------------------------------

  /** What one GeoJSON feature becomes: skipped, a volume, or a crash on a short position. */
  datatype Built = Skip | Volume(feature: AirspaceFeature) | Trap

  /** The geometry of a usable feature: at least three positions. */
  function Outline2D(feature: Object): Option<seq<seq<real>>>
  {
    var properties := ObjectField(feature, "properties");
    var geometry := ObjectField(feature, "geometry");
    if properties.None? || geometry.None? || StringField(properties.value, "CLASS").None? then None
    else
      var coords := ExtractCoordinates(geometry.value);
      if coords.None? || |coords.value| < 3 then None else coords
  }

  /** Every position has a longitude and a latitude. */
  predicate WellFormed(coords: seq<seq<real>>)
  {
    forall k :: 0 <= k < |coords| ==> |coords[k]| >= 2
  }

  function WorldPoints(coords: seq<seq<real>>, project: (real, real) -> Vec2): (r: seq<Vec2>)
    requires WellFormed(coords)
    ensures |r| == |coords|
  {
    seq(|coords|, k requires 0 <= k < |coords| => project(coords[k][0], coords[k][1]))
  }

  /** The shape every built volume has: an outline of at least three edges and a non-empty fill. */
  predicate GoodVolume(f: AirspaceFeature)
  {
    |f.edgeVertices| >= 18 && |f.edgeVertices| % 6 == 0 && |f.fillVertices| > |f.edgeVertices|
  }

  /** One pass of `buildFeatures`' loop. */
  function BuildOne(feature: Object, project: (real, real) -> Vec2, isEar: (seq<nat>, nat, nat, nat) -> bool,
                    parseFloat: string -> Option<real>): (b: Built)
    ensures b.Volume? ==> (Outline2D(feature).Some? && GoodVolume(b.feature) &&
      b.feature.airspaceClass == feature["properties"].fields["CLASS"].s)
  {
    var coords := Outline2D(feature);
    if coords.None? then Skip
    else if !WellFormed(coords.value) then Trap
    else
      var properties := feature["properties"].fields;
      var airClass := properties["CLASS"].s;
      var name := StringField(properties, "NAME").GetOr("Unknown");
      var floorFeet := ParseAltitude(Field(properties, "LOWER_VAL"), StringField(properties, "LOWER_UOM"), parseFloat);
      var ceilingFeet := ParseAltitude(Field(properties, "UPPER_VAL"), StringField(properties, "UPPER_UOM"), parseFloat);
      var points := WorldPoints(coords.value, project);
      var tri := Triangulation(points, isEar);
      if tri == [] then Skip
      else
        TriangulationGood(points, isEar);
        TriangleIndicesIn(tri, |points|);
        Volume(Extrude(name, airClass, floorFeet, ceilingFeet, points, tri))
  }

  /** The volume of a triangulated outline: its fill and edge meshes between floor and ceiling. */
  function Extrude(name: string, airClass: string, floorFeet: real, ceilingFeet: real, points: seq<Vec2>, tri: seq<nat>)
    : (f: AirspaceFeature)
    requires IndicesIn(tri, |points|) && |tri| % 3 == 0 && |tri| > 0 && |points| >= 3
    ensures GoodVolume(f) && f.airspaceClass == airClass
  {
    var floorY := FloorY(floorFeet);
    var ceilingY := CeilingY(floorFeet, ceilingFeet);
    MeshCounts(points, tri, floorY, ceilingY, FillColor(airClass));
    AirspaceFeature(name, airClass, floorFeet, ceilingFeet,
                    FillMesh(points, tri, floorY, ceilingY, FillColor(airClass)),
                    EdgeMesh(points, floorY, ceilingY, EdgeColor(airClass)))
  }

  lemma TriangleIndicesIn(tri: seq<nat>, n: nat)
    requires |tri| % 3 == 0 && forall t :: 0 <= t < |tri| / 3 ==> GoodTriangle(tri, t, n)
    ensures IndicesIn(tri, n)
  {
    forall k | 0 <= k < |tri|
      ensures tri[k] < n
    {
      assert GoodTriangle(tri, k / 3, n);
      assert k == 3 * (k / 3) + k % 3;
    }
  }

  /** `buildFeatures(from:)`: the volumes in input order, or a trap. */
  function BuildAll(features: seq<Object>, project: (real, real) -> Vec2, isEar: (seq<nat>, nat, nat, nat) -> bool,
                    parseFloat: string -> Option<real>): Option<seq<AirspaceFeature>>
  {
    if features == [] then Some([])
    else
      var prev := BuildAll(features[..|features| - 1], project, isEar, parseFloat);
      match BuildOne(features[|features| - 1], project, isEar, parseFloat)
      case Trap => None
      case Skip => prev
      case Volume(f) => if prev.None? then None else Some(prev.value + [f])
  }

  /** Every built volume has that shape, and there are never more volumes than features. */
  lemma {:induction false} BuiltVolumes(features: seq<Object>, project: (real, real) -> Vec2,
                                        isEar: (seq<nat>, nat, nat, nat) -> bool, parseFloat: string -> Option<real>)
    ensures var r := BuildAll(features, project, isEar, parseFloat);
      r.Some? ==> (|r.value| <= |features| && forall k :: 0 <= k < |r.value| ==> GoodVolume(r.value[k]))
  {
    if features != [] {
      BuiltVolumes(features[..|features| - 1], project, isEar, parseFloat);
    }
  }

  /** A feature without properties, geometry or class, or with under three positions, adds nothing. */
  lemma SkipsUnusable(feature: Object, project: (real, real) -> Vec2, isEar: (seq<nat>, nat, nat, nat) -> bool,
                      parseFloat: string -> Option<real>)
    requires ObjectField(feature, "properties").None? || ObjectField(feature, "geometry").None? ||
             StringField(feature["properties"].fields, "CLASS").None? ||
             ExtractCoordinates(feature["geometry"].fields).None? ||
             |ExtractCoordinates(feature["geometry"].fields).value| < 3
    ensures BuildOne(feature, project, isEar, parseFloat) == Skip
  {
  }

  // ---------------------------------------------------------------------
  // Per-frame packing
  // ---------------------------------------------------------------------

  /** `classOrder`: D, then C, then B; anything else first. */
  function ClassOrder(airClass: string): (r: int)
    ensures airClass == "D" ==> r == 1
    ensures airClass == "C" ==> r == 2
    ensures airClass == "B" ==> r == 3
    ensures airClass !in {"B", "C", "D"} ==> r == 0
  {
    if airClass == "D" then 1 else if airClass == "C" then 2 else if airClass == "B" then 3 else 0
  }

  predicate Shown(f: AirspaceFeature, showB: bool, showC: bool, showD: bool)
  {
    (f.airspaceClass == "B" && showB) || (f.airspaceClass == "C" && showC) || (f.airspaceClass == "D" && showD)
  }

  function OfClass(features: seq<AirspaceFeature>, c: string, show: bool): (r: seq<AirspaceFeature>)
    ensures |r| <= |features|
    ensures forall k :: 0 <= k < |r| ==> r[k].airspaceClass == c && r[k] in features
  {
    if features == [] || !show then []
    else
      var init := OfClass(features[..|features| - 1], c, show);
      if features[|features| - 1].airspaceClass == c then init + [features[|features| - 1]] else init
  }

  /** The features drawn, in drawing order: shown D volumes, then C, then B, each in input order. */
  function DrawOrder(features: seq<AirspaceFeature>, showB: bool, showC: bool, showD: bool): seq<AirspaceFeature>
  {
    OfClass(features, "D", showD) + OfClass(features, "C", showC) + OfClass(features, "B", showB)
  }

  function Count(features: seq<AirspaceFeature>, f: AirspaceFeature): nat
  {
    multiset(features)[f]
  }

  /** The draw order holds exactly the shown features, each as often as in the input, sorted by class order. */
  lemma DrawOrderIsSortedFilter(features: seq<AirspaceFeature>, showB: bool, showC: bool, showD: bool)
    ensures var d := DrawOrder(features, showB, showC, showD);
      (forall k :: 0 <= k < |d| ==> Shown(d[k], showB, showC, showD)) &&
      (forall j, k :: 0 <= j < k < |d| ==> ClassOrder(d[j].airspaceClass) <= ClassOrder(d[k].airspaceClass))
    ensures forall f :: Shown(f, showB, showC, showD) ==>
      multiset(DrawOrder(features, showB, showC, showD))[f] == multiset(features)[f]
    ensures forall f :: !Shown(f, showB, showC, showD) ==> multiset(DrawOrder(features, showB, showC, showD))[f] == 0
  {
    var d := DrawOrder(features, showB, showC, showD);
    DrawOrderSorted(features, showB, showC, showD);
    forall f
      ensures multiset(d)[f] == (if Shown(f, showB, showC, showD) then multiset(features)[f] else 0)
    {
      OfClassCount(features, "D", showD, f);
      OfClassCount(features, "C", showC, f);
      OfClassCount(features, "B", showB, f);
    }
  }

  /** Every feature drawn is shown, and class order never decreases along the draw order. */
  lemma DrawOrderSorted(features: seq<AirspaceFeature>, showB: bool, showC: bool, showD: bool)
    ensures var d := DrawOrder(features, showB, showC, showD);
      (forall k :: 0 <= k < |d| ==> Shown(d[k], showB, showC, showD)) &&
      (forall j, k :: 0 <= j < k < |d| ==> ClassOrder(d[j].airspaceClass) <= ClassOrder(d[k].airspaceClass))
  {
    var dd := OfClass(features, "D", showD);
    var cc := OfClass(features, "C", showC);
    var bb := OfClass(features, "B", showB);
    var d := dd + cc + bb;
    assert d == DrawOrder(features, showB, showC, showD);
    assert forall k :: 0 <= k < |d| ==> ClassOrder(d[k].airspaceClass) == (if k < |dd| then 1 else if k < |dd| + |cc| then 2 else 3) by {
      forall k | 0 <= k < |d|
        ensures ClassOrder(d[k].airspaceClass) == (if k < |dd| then 1 else if k < |dd| + |cc| then 2 else 3)
      {
        if k < |dd| {
          assert d[k] == dd[k];
        } else if k < |dd| + |cc| {
          assert d[k] == cc[k - |dd|];
        } else {
          assert d[k] == bb[k - |dd| - |cc|];
        }
      }
    }
    forall k | 0 <= k < |d|
      ensures Shown(d[k], showB, showC, showD)
    {
      if k < |dd| {
        assert d[k] == dd[k];
        assert showD;
      } else if k < |dd| + |cc| {
        assert d[k] == cc[k - |dd|];
        assert showC;
      } else {
        assert d[k] == bb[k - |dd| - |cc|];
        assert showB;
      }
    }
  }

  lemma {:induction false} OfClassCount(features: seq<AirspaceFeature>, c: string, show: bool, f: AirspaceFeature)
    ensures multiset(OfClass(features, c, show))[f] == (if show && f.airspaceClass == c then multiset(features)[f] else 0)
  {
    if features != [] && show {
      var init := features[..|features| - 1];
      OfClassCount(init, c, show, f);
      assert features == init + [features[|features| - 1]];
    }
  }

  /** Whole meshes copied from the front while they fit; the first that does not fit ends the copy. */
  function Pack(meshes: seq<seq<AirspaceVertex>>, room: nat): (r: seq<AirspaceVertex>)
    ensures |r| <= room
  {
    if meshes == [] || |meshes[0]| > room then []
    else meshes[0] + Pack(meshes[1..], room - |meshes[0]|)
  }

  function Concat(meshes: seq<seq<AirspaceVertex>>): seq<AirspaceVertex>
  {
    if meshes == [] then [] else Concat(meshes[..|meshes| - 1]) + meshes[|meshes| - 1]
  }

  /** How many whole meshes `Pack` copies. */
  function Packed(meshes: seq<seq<AirspaceVertex>>, room: nat): (k: nat)
    ensures k <= |meshes|
  {
    if meshes == [] || |meshes[0]| > room then 0 else 1 + Packed(meshes[1..], room - |meshes[0]|)
  }

  /** The packed buffer is the concatenation of the first `Packed` meshes, and the next one would overflow it. */
  lemma {:induction false} PackIsPrefix(meshes: seq<seq<AirspaceVertex>>, room: nat)
    ensures Pack(meshes, room) == Concat(meshes[..Packed(meshes, room)])
    ensures Packed(meshes, room) < |meshes| ==> |Pack(meshes, room)| + |meshes[Packed(meshes, room)]| > room
  {
    if meshes == [] || |meshes[0]| > room {
      assert meshes[..0] == [];
    } else {
      var rest := meshes[1..];
      var k := Packed(rest, room - |meshes[0]|);
      PackIsPrefix(rest, room - |meshes[0]|);
      ConcatCons(meshes, k + 1);
      assert rest[..k] == meshes[1..k + 1];
      if k < |rest| {
        assert rest[k] == meshes[k + 1];
      }
    }
  }

  lemma {:induction false} ConcatCons(meshes: seq<seq<AirspaceVertex>>, k: nat)
    requires 1 <= k <= |meshes|
    ensures Concat(meshes[..k]) == meshes[0] + Concat(meshes[1..k])
  {
    if k > 1 {
      ConcatCons(meshes, k - 1);
      assert meshes[..k][..k - 1] == meshes[..k - 1];
      assert meshes[1..k][..k - 2] == meshes[1..k - 1];
    } else {
      assert meshes[..1][..0] == [];
    }
  }

  function FillMeshes(features: seq<AirspaceFeature>): (r: seq<seq<AirspaceVertex>>)
    ensures |r| == |features| && forall k :: 0 <= k < |r| ==> r[k] == features[k].fillVertices
  {
    seq(|features|, k requires 0 <= k < |features| => features[k].fillVertices)
  }

  function EdgeMeshes(features: seq<AirspaceFeature>): (r: seq<seq<AirspaceVertex>>)
    ensures |r| == |features| && forall k :: 0 <= k < |r| ==> r[k] == features[k].edgeVertices
  {
    seq(|features|, k requires 0 <= k < |features| => features[k].edgeVertices)
  }

  // ---------------------------------------------------------------------
  // Re-fetch decision
  // ---------------------------------------------------------------------

  function Abs(x: real): real { if x < 0.0 then -x else x }

  /** The centre moved less than 20% of the new span on both axes. */
  predicate MovedLittle(last: Bounds, b: Bounds)
  {
    Abs((b.north + b.south) / 2.0 - (last.north + last.south) / 2.0) < (b.north - b.south) * 0.2 &&
    Abs((b.east + b.west) / 2.0 - (last.east + last.west) / 2.0) < (b.east - b.west) * 0.2
  }

  /** `loadAirspace` goes to the network unless the view barely moved or a load is running. */
  function ShouldFetch(last: Option<Bounds>, b: Bounds, isLoading: bool): (r: bool)
    ensures last.None? && !isLoading ==> r
    ensures isLoading ==> !r
  {
    !(last.Some? && MovedLittle(last.value, b)) && !isLoading
  }

  /** Asking again for the area just fetched never re-fetches it. */
  lemma SameAreaNoRefetch(b: Bounds, isLoading: bool)
    requires b.north > b.south && b.east > b.west
    ensures !ShouldFetch(Some(b), b, isLoading)
  {
  }

  /** The features a response holds: its `features` array of objects, or none. */
  function ResponseFeatures(json: Value): seq<Object>
  {
    if json.JObject? && "features" in json.fields && json.fields["features"].JArray? then
      match CastAll(json.fields["features"].elems, (v: Value) => if v.JObject? then Some(v.fields) else None)
      case Some(objs) => objs
      case None => []
    else []
  }

  // ---------------------------------------------------------------------
  // The manager
  // ---------------------------------------------------------------------

  class AirspaceManager {
    var showClassB: bool
    var showClassC: bool
    var showClassD: bool
    var features: seq<AirspaceFeature>
    var isLoading: bool
    var lastFetchBounds: Option<Bounds>
    /** What the last update wrote into its frame's fill and edge buffers. */
    var fill: seq<AirspaceVertex>
    var edges: seq<AirspaceVertex>

    ghost predicate Valid()
      reads this
    {
      |fill| <= MaxFillVertices && |edges| <= MaxEdgeVertices
    }

    constructor ()
      ensures Valid() && showClassB && showClassC && showClassD
      ensures features == [] && !isLoading && lastFetchBounds.None?
    {
      showClassB, showClassC, showClassD := true, true, true;
      features := [];
      isLoading := false;
      lastFetchBounds := None;
      fill, edges := [], [];
    }

    /**
     * `loadAirspace(west:south:east:north:)`. `response` is the parsed reply,
     * or `Failed` when the request or parsing throws; a trap while building
     * is reported as `false`.
     */
    method LoadAirspace(b: Bounds, response: Fetch<Value>, project: (real, real) -> Vec2,
                        isEar: (seq<nat>, nat, nat, nat) -> bool, parseFloat: string -> Option<real>)
      returns (ok: bool)
      modifies this`features, this`lastFetchBounds, this`isLoading
      ensures !ShouldFetch(old(lastFetchBounds), b, old(isLoading)) ==>
        ok && features == old(features) && lastFetchBounds == old(lastFetchBounds) && isLoading == old(isLoading)
      ensures ShouldFetch(old(lastFetchBounds), b, old(isLoading)) && response.Failed? ==>
        ok && features == old(features) && lastFetchBounds == old(lastFetchBounds) && !isLoading
      ensures ShouldFetch(old(lastFetchBounds), b, old(isLoading)) && response.Decoded? ==>
        var built := BuildAll(ResponseFeatures(response.response), project, isEar, parseFloat);
        ok == built.Some? && (ok ==> features == built.value && lastFetchBounds == Some(b) && !isLoading)
    {
      if lastFetchBounds.Some? {
        var last := lastFetchBounds.value;
        var latShift := Abs((b.north + b.south) / 2.0 - (last.north + last.south) / 2.0);
        var lonShift := Abs((b.east + b.west) / 2.0 - (last.east + last.west) / 2.0);
        if latShift < (b.north - b.south) * 0.2 && lonShift < (b.east - b.west) * 0.2 {
          return true;
        }
      }
      if isLoading {
        return true;
      }
      isLoading := true;
      if response.Failed? {
        isLoading := false;
        return true;
      }
      var built := BuildFeatures(ResponseFeatures(response.response), project, isEar, parseFloat);
      if built.None? {
        return false;
      }
      features := built.value;
      lastFetchBounds := Some(b);
      isLoading := false;
      return true;
    }

    /** `update(bufferIndex:)`: pack the shown volumes, D first, into the fill and edge buffers. */
    method Update()
      modifies this`fill, this`edges
      ensures Valid()
      ensures var order := DrawOrder(features, showClassB, showClassC, showClassD);
        fill == Pack(FillMeshes(order), MaxFillVertices) && edges == Pack(EdgeMeshes(order), MaxEdgeVertices)
    {
      var visible := Visible(features, showClassB, showClassC, showClassD);
      var sorted := SortByClass(visible);
      VisibleThenSorted(features, showClassB, showClassC, showClassD);
      fill := PackBuffer(FillMeshes(sorted), MaxFillVertices);
      edges := PackBuffer(EdgeMeshes(sorted), MaxEdgeVertices);
    }
  }

  /** `features.filter` on the class toggles. */
  method Visible(features: seq<AirspaceFeature>, showB: bool, showC: bool, showD: bool) returns (visible: seq<AirspaceFeature>)
    ensures visible == OfClassAny(features, showB, showC, showD)
  {
    visible := [];
    var i := 0;
    while i < |features|
      invariant 0 <= i <= |features| && visible == OfClassAny(features[..i], showB, showC, showD)
    {
      assert features[..i + 1][..i] == features[..i];
      if Shown(features[i], showB, showC, showD) {
        visible := visible + [features[i]];
      }
      i := i + 1;
    }
    assert features[..i] == features;
  }

  function OfClassAny(features: seq<AirspaceFeature>, showB: bool, showC: bool, showD: bool): seq<AirspaceFeature>
  {
    if features == [] then []
    else
      var init := OfClassAny(features[..|features| - 1], showB, showC, showD);
      if Shown(features[|features| - 1], showB, showC, showD) then init + [features[|features| - 1]] else init
  }

  /** Filtering on the toggles, then grouping by class, gives the draw order. */
  lemma VisibleThenSorted(features: seq<AirspaceFeature>, showB: bool, showC: bool, showD: bool)
    ensures DrawOrder(OfClassAny(features, showB, showC, showD), true, true, true) == DrawOrder(features, showB, showC, showD)
  {
    FilterThenClass(features, showB, showC, showD, "D", showD);
    FilterThenClass(features, showB, showC, showD, "C", showC);
    FilterThenClass(features, showB, showC, showD, "B", showB);
  }

  lemma {:induction false} FilterThenClass(features: seq<AirspaceFeature>, showB: bool, showC: bool, showD: bool,
                                           c: string, show: bool)
    requires (c == "B" && show == showB) || (c == "C" && show == showC) || (c == "D" && show == showD)
    ensures OfClass(OfClassAny(features, showB, showC, showD), c, true) == OfClass(features, c, show)
  {
    if features != [] {
      var init := features[..|features| - 1];
      var last := features[|features| - 1];
      FilterThenClass(init, showB, showC, showD, c, show);
      var v := OfClassAny(init, showB, showC, showD);
      ShownInClass(last, showB, showC, showD, c, show);
      if Shown(last, showB, showC, showD) {
        assert OfClassAny(features, showB, showC, showD) == v + [last];
        assert (v + [last])[..|v + [last]| - 1] == v;
      } else {
        assert OfClassAny(features, showB, showC, showD) == v;
      }
    }
  }

  lemma ShownInClass(f: AirspaceFeature, showB: bool, showC: bool, showD: bool, c: string, show: bool)
    requires (c == "B" && show == showB) || (c == "C" && show == showC) || (c == "D" && show == showD)
    ensures f.airspaceClass == c ==> (Shown(f, showB, showC, showD) <==> show)
  {
  }

  /** Sorting the shown features by class order, keeping input order within a class. */
  method SortByClass(visible: seq<AirspaceFeature>) returns (sorted: seq<AirspaceFeature>)
    ensures sorted == DrawOrder(visible, true, true, true)
  {
    var ds: seq<AirspaceFeature> := [];
    var cs: seq<AirspaceFeature> := [];
    var bs: seq<AirspaceFeature> := [];
    var i := 0;
    while i < |visible|
      invariant 0 <= i <= |visible|
      invariant ds == OfClass(visible[..i], "D", true) && cs == OfClass(visible[..i], "C", true) && bs == OfClass(visible[..i], "B", true)
    {
      assert visible[..i + 1][..i] == visible[..i];
      if visible[i].airspaceClass == "D" {
        ds := ds + [visible[i]];
      } else if visible[i].airspaceClass == "C" {
        cs := cs + [visible[i]];
      } else if visible[i].airspaceClass == "B" {
        bs := bs + [visible[i]];
      }
      i := i + 1;
    }
    assert visible[..i] == visible;
    sorted := ds + cs + bs;
  }

  /** The packing loop: copy whole meshes vertex by vertex until the next one would not fit. */
  method PackBuffer(meshes: seq<seq<AirspaceVertex>>, capacity: nat) returns (out: seq<AirspaceVertex>)
    ensures out == Pack(meshes, capacity)
  {
    out := [];
    var i := 0;
    while i < |meshes|
      invariant 0 <= i <= |meshes| && |out| <= capacity
      invariant out + Pack(meshes[i..], capacity - |out|) == Pack(meshes, capacity)
    {
      var needed := |meshes[i]|;
      if |out| + needed > capacity {
        break;
      }
      PackStep(meshes, i, capacity - |out|);
      ghost var base := out;
      out := CopyVertices(out, meshes[i]);
      assert base + Pack(meshes[i..], capacity - |base|) == out + Pack(meshes[i + 1..], capacity - |out|);
      i := i + 1;
    }
  }

  /** When the mesh at `i` fits, packing from `i` copies it and packs the rest into what is left. */
  lemma PackStep(meshes: seq<seq<AirspaceVertex>>, i: nat, room: nat)
    requires i < |meshes| && |meshes[i]| <= room
    ensures Pack(meshes[i..], room) == meshes[i] + Pack(meshes[i + 1..], room - |meshes[i]|)
  {
    assert meshes[i..][1..] == meshes[i + 1..];
  }

  /** The inner copy loop of the packing: appends the mesh's vertices one by one. */
  method CopyVertices(out: seq<AirspaceVertex>, mesh: seq<AirspaceVertex>) returns (r: seq<AirspaceVertex>)
    ensures r == out + mesh
  {
    r := out;
    var j := 0;
    while j < |mesh|
      invariant 0 <= j <= |mesh| && r == out + mesh[..j]
    {
      r := r + [mesh[j]];
      assert mesh[..j + 1] == mesh[..j] + [mesh[j]];
      j := j + 1;
    }
    assert mesh[..j] == mesh;
  }

  /** `buildFeatures(from:)`; `None` when a position without a longitude and latitude traps. */
  method BuildFeatures(input: seq<Object>, project: (real, real) -> Vec2, isEar: (seq<nat>, nat, nat, nat) -> bool,
                       parseFloat: string -> Option<real>) returns (result: Option<seq<AirspaceFeature>>)
    ensures result == BuildAll(input, project, isEar, parseFloat)
  {
    var out: seq<AirspaceFeature> := [];
    var i := 0;
    while i < |input|
      invariant 0 <= i <= |input| && BuildAll(input[..i], project, isEar, parseFloat) == Some(out)
    {
      assert input[..i + 1][..i] == input[..i];
      var b := BuildFeature(input[i], project, isEar, parseFloat);
      if b.Trap? {
        TrapSticks(input, i + 1, project, isEar, parseFloat);
        return None;
      }
      if b.Volume? {
        out := out + [b.feature];
      }
      i := i + 1;
    }
    assert input[..i] == input;
    return Some(out);
  }

  /** Once a feature traps, the whole build has trapped. */
  lemma {:induction false} TrapSticks(input: seq<Object>, i: nat, project: (real, real) -> Vec2,
                                      isEar: (seq<nat>, nat, nat, nat) -> bool, parseFloat: string -> Option<real>)
    requires 1 <= i <= |input| && BuildAll(input[..i], project, isEar, parseFloat).None?
    ensures BuildAll(input, project, isEar, parseFloat).None?
    decreases |input| - i
  {
    if i < |input| {
      assert input[..i + 1][..i] == input[..i];
      TrapSticks(input, i + 1, project, isEar, parseFloat);
    } else {
      assert input[..i] == input;
    }
  }

  /** The body of `buildFeatures`' loop for one feature. */
  method BuildFeature(feature: Object, project: (real, real) -> Vec2, isEar: (seq<nat>, nat, nat, nat) -> bool,
                      parseFloat: string -> Option<real>) returns (b: Built)
    ensures b == BuildOne(feature, project, isEar, parseFloat)
  {
    var properties := ObjectField(feature, "properties");
    var geometry := ObjectField(feature, "geometry");
    var airClass := if properties.Some? then StringField(properties.value, "CLASS") else None;
    if properties.None? || geometry.None? || airClass.None? {
      return Skip;
    }
    var name := StringField(properties.value, "NAME").GetOr("Unknown");
    var floorFeet := ParseAltitude(Field(properties.value, "LOWER_VAL"), StringField(properties.value, "LOWER_UOM"), parseFloat);
    var ceilingFeet := ParseAltitude(Field(properties.value, "UPPER_VAL"), StringField(properties.value, "UPPER_UOM"), parseFloat);
    var coords := ExtractCoordinates(geometry.value);
    if coords.None? || |coords.value| < 3 {
      return Skip;
    }
    if !WellFormed(coords.value) {
      return Trap;
    }
    var points := WorldPoints(coords.value, project);
    var tri := Triangulate(points, isEar);
    if tri == [] {
      return Skip;
    }
    TriangulationGood(points, isEar);
    TriangleIndicesIn(tri, |points|);
    var floorY := FloorY(floorFeet);
    var ceilingY := CeilingY(floorFeet, ceilingFeet);
    var fillVertices := BuildFillMesh(points, tri, floorY, ceilingY, FillColor(airClass.value));
    var edgeVertices := BuildEdgeMesh(points, floorY, ceilingY, EdgeColor(airClass.value));
    return Volume(AirspaceFeature(name, airClass.value, floorFeet, ceilingFeet, fillVertices, edgeVertices));
  }

  /** `buildFillMesh`: floor, then ceiling, then walls. */
  method BuildFillMesh(points: seq<Vec2>, tri: seq<nat>, floorY: real, ceilingY: real, color: Color)
    returns (vertices: seq<AirspaceVertex>)
    requires IndicesIn(tri, |points|) && |tri| % 3 == 0
    ensures vertices == FillMesh(points, tri, floorY, ceilingY, color)
  {
    var floor := FloorLoop(points, tri, floorY, color);
    var ceiling := CeilingLoop(points, tri, ceilingY, color);
    var walls := WallLoop(points, floorY, ceilingY, color);
    vertices := floor + ceiling + walls;
  }

  /** The floor loop of `buildFillMesh`: one triangle per index triple, wound as given. */
  method FloorLoop(points: seq<Vec2>, tri: seq<nat>, floorY: real, color: Color) returns (vertices: seq<AirspaceVertex>)
    requires IndicesIn(tri, |points|) && |tri| % 3 == 0
    ensures vertices == FloorFace(points, tri, floorY, color)
  {
    var triCount := |tri| / 3;
    vertices := [];
    var i := 0;
    while i < triCount
      invariant 0 <= i <= triCount && vertices == FloorFace(points, tri[..3 * i], floorY, color)
    {
      assert tri[..3 * (i + 1)] == tri[..3 * i] + [tri[3 * i], tri[3 * i + 1], tri[3 * i + 2]];
      vertices := vertices + [At(points[tri[i * 3]], floorY, color), At(points[tri[i * 3 + 1]], floorY, color),
                              At(points[tri[i * 3 + 2]], floorY, color)];
      i := i + 1;
    }
    assert tri[..3 * i] == tri;
  }

  /** The ceiling loop of `buildFillMesh`: the same triangles with reversed winding. */
  method CeilingLoop(points: seq<Vec2>, tri: seq<nat>, ceilingY: real, color: Color) returns (vertices: seq<AirspaceVertex>)
    requires IndicesIn(tri, |points|) && |tri| % 3 == 0
    ensures vertices == CeilingFace(points, tri, ceilingY, color)
  {
    var triCount := |tri| / 3;
    vertices := [];
    var i := 0;
    while i < triCount
      invariant 0 <= i <= triCount && vertices == CeilingFace(points, tri[..3 * i], ceilingY, color)
    {
      assert tri[..3 * (i + 1)] == tri[..3 * i] + [tri[3 * i], tri[3 * i + 1], tri[3 * i + 2]];
      vertices := vertices + [At(points[tri[i * 3]], ceilingY, color), At(points[tri[i * 3 + 2]], ceilingY, color),
                              At(points[tri[i * 3 + 1]], ceilingY, color)];
      i := i + 1;
    }
    assert tri[..3 * i] == tri;
  }

  /** The wall loop of `buildFillMesh`: two triangles per polygon edge, wrapping to the first point. */
  method WallLoop(points: seq<Vec2>, floorY: real, ceilingY: real, color: Color) returns (vertices: seq<AirspaceVertex>)
    ensures vertices == Walls(points, |points|, floorY, ceilingY, color)
  {
    vertices := [];
    var i := 0;
    while i < |points|
      invariant 0 <= i <= |points| && vertices == Walls(points, i, floorY, ceilingY, color)
    {
      var j := (i + 1) % |points|;
      var p0 := points[i];
      var p1 := points[j];
      vertices := vertices + [At(p0, floorY, color), At(p1, floorY, color), At(p1, ceilingY, color)];
      vertices := vertices + [At(p0, floorY, color), At(p1, ceilingY, color), At(p0, ceilingY, color)];
      i := i + 1;
    }
  }

  /** `buildEdgeMesh`. */
  method BuildEdgeMesh(points: seq<Vec2>, floorY: real, ceilingY: real, color: Color) returns (vertices: seq<AirspaceVertex>)
    ensures vertices == EdgeMesh(points, floorY, ceilingY, color)
  {
    vertices := [];
    var i := 0;
    while i < |points|
      invariant 0 <= i <= |points| && vertices == Outlines(points, i, floorY, ceilingY, color)
    {
      var j := (i + 1) % |points|;
      var p0 := points[i];
      var p1 := points[j];
      vertices := vertices + [At(p0, floorY, color), At(p1, floorY, color)];
      vertices := vertices + [At(p0, ceilingY, color), At(p1, ceilingY, color)];
      vertices := vertices + [At(p0, floorY, color), At(p0, ceilingY, color)];
      i := i + 1;
    }
  }
}
