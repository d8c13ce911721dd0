/**
 * The procedural aircraft geometry: cylinders, cones, boxes and spheres
 * appended to growing vertex and 16-bit index arrays, the per-category
 * builders that chain them, and the library that holds their meshes.
 */
module MeshLibrary {
  import opened Wrappers
  import opened Geometry
  import opened AircraftCategory

  /** Indices are `UInt16`, so a mesh can address at most this many vertices. */
  const IndexLimit: nat := 65536
  /** The `segments` default that every builder uses. */
  const Segments: nat := 8

  datatype AircraftVertex = AircraftVertex(position: Vec3, normal: Vec3)

  /** Vertex and index buffers with their counts. */
  datatype AircraftMesh = AircraftMesh(vertices: seq<AircraftVertex>, indices: seq<int>, vertexCount: nat, indexCount: nat)

  /** `cos` and `sin` of an angle (as `x` and `y`) and `normalize`, which the model takes as given. */
  datatype Trig = Trig(cosSin: real -> Vec2, normalize: Vec3 -> Vec3)

  function Add(a: Vec3, b: Vec3): Vec3 { Vec3(a.x + b.x, a.y + b.y, a.z + b.z) }

  function Scale(a: Vec3, k: real): Vec3 { Vec3(a.x * k, a.y * k, a.z * k) }

  /** `Float(i) / Float(n) * 2 * pi`. */
  function Angle(i: nat, n: nat): real
    requires n > 0
  {
    i as real / n as real * 2.0 * Pi
  }

  predicate InRange(indices: seq<int>, lo: int, hi: int) {
    forall k :: 0 <= k < |indices| ==> lo <= indices[k] < hi
  }

  /** Every index names a vertex, and the vertices fit the 16-bit index type. */
  predicate Indexes(vertices: seq<AircraftVertex>, indices: seq<int>) {
    |vertices| <= IndexLimit && InRange(indices, 0, |vertices|)
  }

  /** Appending vertices and indices into the appended vertices keeps every index valid. */
  lemma AppendKeepsIndexes(vertices: seq<AircraftVertex>, indices: seq<int>, added: seq<AircraftVertex>, more: seq<int>)
    requires |vertices| + |added| <= IndexLimit
    requires InRange(more, |vertices|, |vertices| + |added|)
    ensures Indexes(vertices, indices) ==> Indexes(vertices + added, indices + more)
  {
  }

  /** A mesh whose counts are its array lengths and whose indices are all valid. */
  predicate MeshOk(m: AircraftMesh) {
    Indexes(m.vertices, m.indices) && m.vertexCount == |m.vertices| && m.indexCount == |m.indices|
  }

  // ---------------------------------------------------------------- cylinder

  /** Bottom and top side vertex of segment `i`, sharing the outward normal. */
  function RingPair(radius: real, halfH: real, s: nat, i: nat, offset: Vec3, trig: Trig): seq<AircraftVertex>
    requires i < s
  {
    var c := trig.cosSin(Angle(i, s));
    var normal := trig.normalize(Vec3(c.x, 0.0, c.y));
    [AircraftVertex(Add(Vec3(c.x * radius, -halfH, c.y * radius), offset), normal),
     AircraftVertex(Add(Vec3(c.x * radius, halfH, c.y * radius), offset), normal)]
  }

  function SideRing(radius: real, halfH: real, s: nat, n: nat, offset: Vec3, trig: Trig): (r: seq<AircraftVertex>)
    requires n <= s
    ensures |r| == 2 * n
  {
    if n == 0 then [] else SideRing(radius, halfH, s, n - 1, offset, trig) + RingPair(radius, halfH, s, n - 1, offset, trig)
  }

  /** Bottom and top cap vertex of segment `i`, with flat normals. */
  function CapPair(radius: real, halfH: real, s: nat, i: nat, offset: Vec3, trig: Trig): seq<AircraftVertex>
    requires i < s
  {
    var c := trig.cosSin(Angle(i, s));
    [AircraftVertex(Add(Vec3(c.x * radius, -halfH, c.y * radius), offset), Vec3(0.0, -1.0, 0.0)),
     AircraftVertex(Add(Vec3(c.x * radius, halfH, c.y * radius), offset), Vec3(0.0, 1.0, 0.0))]
  }

  function CapRing(radius: real, halfH: real, s: nat, n: nat, offset: Vec3, trig: Trig): (r: seq<AircraftVertex>)
    requires n <= s
    ensures |r| == 2 * n
  {
    if n == 0 then [] else CapRing(radius, halfH, s, n - 1, offset, trig) + CapPair(radius, halfH, s, n - 1, offset, trig)
  }

  function CapCentres(halfH: real, offset: Vec3): seq<AircraftVertex> {
    [AircraftVertex(Add(Vec3(0.0, -halfH, 0.0), offset), Vec3(0.0, -1.0, 0.0)),
     AircraftVertex(Add(Vec3(0.0, halfH, 0.0), offset), Vec3(0.0, 1.0, 0.0))]
  }

  /** The vertices `appendCylinder` adds: two side rings, the two cap centres, two cap rings. */
  function CylinderVertices(radius: real, height: real, s: nat, offset: Vec3, trig: Trig): (r: seq<AircraftVertex>)
    ensures |r| == 4 * s + 2
  {
    var halfH := height / 2.0;
    SideRing(radius, halfH, s, s, offset, trig) + CapCentres(halfH, offset) + CapRing(radius, halfH, s, s, offset, trig)
  }

  /** The two side triangles of segment `i`, wrapping around to segment 0. */
  function SideQuad(base: int, s: nat, i: nat): seq<int>
    requires i < s
  {
    var next := (i + 1) % s;
    [base + i * 2, base + next * 2, base + i * 2 + 1, base + i * 2 + 1, base + next * 2, base + next * 2 + 1]
  }

  function SideIndices(base: int, s: nat, n: nat): (r: seq<int>)
    requires n <= s
    ensures |r| == 6 * n
  {
    if n == 0 then [] else SideIndices(base, s, n - 1) + SideQuad(base, s, n - 1)
  }

  /** The bottom and top cap triangles of segment `i`. */
  function CapTris(bottomCenter: int, topCenter: int, capBase: int, s: nat, i: nat): seq<int>
    requires i < s
  {
    var next := (i + 1) % s;
    [bottomCenter, capBase + next * 2, capBase + i * 2, topCenter, capBase + i * 2 + 1, capBase + next * 2 + 1]
  }

  function CapIndices(base: int, s: nat, n: nat): (r: seq<int>)
    requires n <= s
    ensures |r| == 6 * n
  {
    if n == 0 then [] else CapIndices(base, s, n - 1) + CapTris(base + 2 * s, base + 2 * s + 1, base + 2 * s + 2, s, n - 1)
  }

  /** The indices `appendCylinder` adds when the vertex array held `base` vertices. */
  function CylinderIndices(base: int, s: nat): (r: seq<int>)
    ensures |r| == 12 * s
  {
    SideIndices(base, s, s) + CapIndices(base, s, s)
  }

  lemma {:induction false} SideIndicesRange(base: int, s: nat, n: nat)
    requires n <= s
    ensures InRange(SideIndices(base, s, n), base, base + 2 * s)
  {
    if n > 0 {
      SideIndicesRange(base, s, n - 1);
    }
  }

  lemma {:induction false} CapIndicesRange(base: int, s: nat, n: nat)
    requires n <= s
    ensures InRange(CapIndices(base, s, n), base + 2 * s, base + 4 * s + 2)
  {
    if n > 0 {
      CapIndicesRange(base, s, n - 1);
    }
  }

  /** A cylinder's indices stay within its own `4s + 2` vertices. */
  lemma CylinderIndicesRange(base: int, s: nat)
    ensures InRange(CylinderIndices(base, s), base, base + 4 * s + 2)
  {
    SideIndicesRange(base, s, s);
    CapIndicesRange(base, s, s);
  }

  /** A vertex on the bottom or top plane of a cylinder centred at `offset`. */
  predicate OnRim(v: AircraftVertex, halfH: real, offset: Vec3) {
    v.position.y == offset.y - halfH || v.position.y == offset.y + halfH
  }

  /** A cap vertex: on the bottom plane facing down or on the top plane facing up. */
  predicate OnCap(v: AircraftVertex, halfH: real, offset: Vec3) {
    (v.position.y == offset.y - halfH && v.normal == Vec3(0.0, -1.0, 0.0)) ||
    (v.position.y == offset.y + halfH && v.normal == Vec3(0.0, 1.0, 0.0))
  }

  lemma {:induction false} SideRingOnRim(radius: real, halfH: real, s: nat, n: nat, offset: Vec3, trig: Trig)
    requires n <= s
    ensures forall k :: 0 <= k < 2 * n ==> OnRim(SideRing(radius, halfH, s, n, offset, trig)[k], halfH, offset)
  {
    if n > 0 {
      SideRingOnRim(radius, halfH, s, n - 1, offset, trig);
    }
  }

  lemma {:induction false} CapRingOnCap(radius: real, halfH: real, s: nat, n: nat, offset: Vec3, trig: Trig)
    requires n <= s
    ensures forall k :: 0 <= k < 2 * n ==> OnCap(CapRing(radius, halfH, s, n, offset, trig)[k], halfH, offset)
  {
    if n > 0 {
      CapRingOnCap(radius, halfH, s, n - 1, offset, trig);
    }
  }

  /**
   * Every cylinder vertex lies on its bottom or top plane, and every vertex
   * after the side rings is a cap vertex with the matching flat normal.
   */
  lemma CylinderShape(radius: real, height: real, s: nat, offset: Vec3, trig: Trig)
    ensures forall k :: 0 <= k < 4 * s + 2 ==> OnRim(CylinderVertices(radius, height, s, offset, trig)[k], height / 2.0, offset)
    ensures forall k :: 2 * s <= k < 4 * s + 2 ==> OnCap(CylinderVertices(radius, height, s, offset, trig)[k], height / 2.0, offset)
  {
    var halfH := height / 2.0;
    SideRingOnRim(radius, halfH, s, s, offset, trig);
    CapRingOnCap(radius, halfH, s, s, offset, trig);
    var side := SideRing(radius, halfH, s, s, offset, trig);
    var caps := CapCentres(halfH, offset) + CapRing(radius, halfH, s, s, offset, trig);
    assert CylinderVertices(radius, height, s, offset, trig) == side + caps;
    assert forall k :: 0 <= k < |caps| ==> OnCap(caps[k], halfH, offset);
  }

  /** `appendCylinder`: a closed cylinder of `segments` sides centred at `offset`. */
  method AppendCylinder(vertices: seq<AircraftVertex>, indices: seq<int>, radius: real, height: real, segments: nat,
                        offset: Vec3, trig: Trig)
    returns (vs: seq<AircraftVertex>, ixs: seq<int>)
    requires |vertices| + 4 * segments + 2 <= IndexLimit
    ensures |vs| == |vertices| + 4 * segments + 2 && vs[..|vertices|] == vertices
    ensures forall k :: 0 <= k < 4 * segments + 2 ==> vs[|vertices| + k] == CylinderVertices(radius, height, segments, offset, trig)[k]
    ensures |ixs| == |indices| + 12 * segments && ixs[..|indices|] == indices
    ensures forall k :: 0 <= k < 12 * segments ==> ixs[|indices| + k] == CylinderIndices(|vertices|, segments)[k]
    ensures Indexes(vertices, indices) ==> Indexes(vs, ixs)
  {
    var base := |vertices|;
    var halfH := height / 2.0;
    vs, ixs := AppendCylinderSides(vertices, indices, radius, halfH, segments, offset, trig);
    vs, ixs := AppendCylinderCaps(vs, ixs, base, radius, halfH, segments, offset, trig);
    assert vs == vertices + (SideRing(radius, halfH, segments, segments, offset, trig) + CapCentres(halfH, offset)
                             + CapRing(radius, halfH, segments, segments, offset, trig));
    assert ixs == indices + (SideIndices(base, segments, segments) + CapIndices(base, segments, segments));
    CylinderIndicesRange(base, segments);
    AppendKeepsIndexes(vertices, indices, CylinderVertices(radius, height, segments, offset, trig), CylinderIndices(base, segments));
  }

  /** The side half of `appendCylinder`: both side rings, then the side quads. */
  method AppendCylinderSides(vertices: seq<AircraftVertex>, indices: seq<int>, radius: real, halfH: real, segments: nat,
                             offset: Vec3, trig: Trig)
    returns (vs: seq<AircraftVertex>, ixs: seq<int>)
    ensures vs == vertices + SideRing(radius, halfH, segments, segments, offset, trig)
    ensures ixs == indices + SideIndices(|vertices|, segments, segments)
  {
    vs := vertices;
    for i := 0 to segments
      invariant vs == vertices + SideRing(radius, halfH, segments, i, offset, trig)
    {
      vs := vs + RingPair(radius, halfH, segments, i, offset, trig);
    }
    ixs := indices;
    for i := 0 to segments
      invariant ixs == indices + SideIndices(|vertices|, segments, i)
    {
      ixs := ixs + SideQuad(|vertices|, segments, i);
    }
  }

  /** The cap half of `appendCylinder`: the two centres, both cap rings, then the cap fans. */
  method AppendCylinderCaps(vertices: seq<AircraftVertex>, indices: seq<int>, base: int, radius: real, halfH: real,
                            segments: nat, offset: Vec3, trig: Trig)
    returns (vs: seq<AircraftVertex>, ixs: seq<int>)
    requires |vertices| == base + 2 * segments
    ensures vs == vertices + (CapCentres(halfH, offset) + CapRing(radius, halfH, segments, segments, offset, trig))
    ensures ixs == indices + CapIndices(base, segments, segments)
  {
    var bottomCenter := |vertices|;
    var topCenter := bottomCenter + 1;
    var capBase := bottomCenter + 2;
    vs := vertices + CapCentres(halfH, offset);
    ghost var withCentres := vs;
    for i := 0 to segments
      invariant vs == withCentres + CapRing(radius, halfH, segments, i, offset, trig)
    {
      vs := vs + CapPair(radius, halfH, segments, i, offset, trig);
    }
    ixs := indices;
    for i := 0 to segments
      invariant ixs == indices + CapIndices(base, segments, i)
    {
      ixs := ixs + CapTris(bottomCenter, topCenter, capBase, segments, i);
    }
  }

  // ---------------------------------------------------------------- cone

  function ConeRim(radius: real, height: real, s: nat, i: nat, offset: Vec3, trig: Trig): AircraftVertex
    requires i < s && height != 0.0
  {
    var c := trig.cosSin(Angle(i, s));
    AircraftVertex(Add(Vec3(c.x * radius, c.y * radius, 0.0), offset), trig.normalize(Vec3(c.x, c.y, radius / height)))
  }

  function ConeRing(radius: real, height: real, s: nat, n: nat, offset: Vec3, trig: Trig): (r: seq<AircraftVertex>)
    requires n <= s && height != 0.0
    ensures |r| == n
  {
    if n == 0 then [] else ConeRing(radius, height, s, n - 1, offset, trig) + [ConeRim(radius, height, s, n - 1, offset, trig)]
  }

  function ConeTip(height: real, offset: Vec3): AircraftVertex {
    AircraftVertex(Add(Vec3(0.0, 0.0, height), offset), Vec3(0.0, 0.0, 1.0))
  }

  /** The vertices `appendCone` adds: the tip, then the base ring. */
  function ConeVertices(radius: real, height: real, s: nat, offset: Vec3, trig: Trig): (r: seq<AircraftVertex>)
    requires height != 0.0
    ensures |r| == s + 1
  {
    [ConeTip(height, offset)] + ConeRing(radius, height, s, s, offset, trig)
  }

  /** Side triangle `i`: the tip and two neighbouring rim vertices. */
  function ConeTri(base: int, s: nat, i: nat): seq<int>
    requires i < s
  {
    [base, base + 1 + i, base + 1 + (i + 1) % s]
  }

  function ConeIndicesUpTo(base: int, s: nat, n: nat): (r: seq<int>)
    requires n <= s
    ensures |r| == 3 * n
  {
    if n == 0 then [] else ConeIndicesUpTo(base, s, n - 1) + ConeTri(base, s, n - 1)
  }

  function ConeIndices(base: int, s: nat): (r: seq<int>)
    ensures |r| == 3 * s
  {
    ConeIndicesUpTo(base, s, s)
  }

  lemma {:induction false} ConeIndicesRange(base: int, s: nat, n: nat)
    requires n <= s
    ensures InRange(ConeIndicesUpTo(base, s, n), base, base + s + 1)
  {
    if n > 0 {
      ConeIndicesRange(base, s, n - 1);
    }
  }

  /** Triangle `k` of the cone fan is the tip with rim vertices `k` and `k + 1` (mod `s`). */
  lemma {:induction false} ConeFan(base: int, s: nat, n: nat, k: nat)
    requires k < n <= s
    ensures ConeIndicesUpTo(base, s, n)[3 * k .. 3 * k + 3] == ConeTri(base, s, k)
  {
    var prev := ConeIndicesUpTo(base, s, n - 1);
    if k < n - 1 {
      ConeFan(base, s, n - 1, k);
      assert (prev + ConeTri(base, s, n - 1))[3 * k .. 3 * k + 3] == prev[3 * k .. 3 * k + 3];
    } else {
      assert (prev + ConeTri(base, s, n - 1))[3 * k .. 3 * k + 3] == ConeTri(base, s, k);
    }
  }

  lemma {:induction false} ConeRingFlat(radius: real, height: real, s: nat, n: nat, offset: Vec3, trig: Trig)
    requires n <= s && height != 0.0
    ensures forall k :: 0 <= k < n ==> ConeRing(radius, height, s, n, offset, trig)[k].position.z == offset.z
  {
    if n > 0 {
      ConeRingFlat(radius, height, s, n - 1, offset, trig);
    }
  }

  /** The base ring lies in the plane through `offset`; the tip is `height` in front of it. */
  lemma ConeShape(radius: real, height: real, s: nat, offset: Vec3, trig: Trig)
    requires height != 0.0
    ensures ConeVertices(radius, height, s, offset, trig)[0].position == Add(Vec3(0.0, 0.0, height), offset)
    ensures forall k :: 1 <= k <= s ==> ConeVertices(radius, height, s, offset, trig)[k].position.z == offset.z
  {
    ConeRingFlat(radius, height, s, s, offset, trig);
    var ring := ConeRing(radius, height, s, s, offset, trig);
    assert forall k :: 1 <= k <= s ==> ConeVertices(radius, height, s, offset, trig)[k] == ring[k - 1];
  }

  /** `appendCone`: a cone of `segments` sides with its base at `offset`, pointing along +Z. */
  method AppendCone(vertices: seq<AircraftVertex>, indices: seq<int>, radius: real, height: real, segments: nat,
                    offset: Vec3, trig: Trig)
    returns (vs: seq<AircraftVertex>, ixs: seq<int>)
    requires |vertices| + segments + 1 <= IndexLimit
    requires height != 0.0
    ensures |vs| == |vertices| + segments + 1 && vs[..|vertices|] == vertices
    ensures forall k :: 0 <= k < segments + 1 ==> vs[|vertices| + k] == ConeVertices(radius, height, segments, offset, trig)[k]
    ensures |ixs| == |indices| + 3 * segments && ixs[..|indices|] == indices
    ensures forall k :: 0 <= k < 3 * segments ==> ixs[|indices| + k] == ConeIndices(|vertices|, segments)[k]
    ensures Indexes(vertices, indices) ==> Indexes(vs, ixs)
  {
    var base := |vertices|;
    vs := vertices + [ConeTip(height, offset)];
    for i := 0 to segments
      invariant vs == vertices + [ConeTip(height, offset)] + ConeRing(radius, height, segments, i, offset, trig)
    {
      vs := vs + [ConeRim(radius, height, segments, i, offset, trig)];
    }
    ixs := indices;
    for i := 0 to segments
      invariant ixs == indices + ConeIndicesUpTo(base, segments, i)
    {
      ixs := ixs + ConeTri(base, segments, i);
    }
    assert vs == vertices + ([ConeTip(height, offset)] + ConeRing(radius, height, segments, segments, offset, trig));
    ConeIndicesRange(base, segments, segments);
    assert vs == vertices + ConeVertices(radius, height, segments, offset, trig);
    assert ixs == indices + ConeIndices(|vertices|, segments);
  }

  // ---------------------------------------------------------------- box

  function Half(size: Vec3): Vec3 { Vec3(size.x / 2.0, size.y / 2.0, size.z / 2.0) }

  /** The six faces of a box: an outward normal and four corners, counter-clockwise from outside. */
  function Faces(h: Vec3): (f: seq<(Vec3, seq<Vec3>)>)
    ensures |f| == 6 && forall i :: 0 <= i < 6 ==> |f[i].1| == 4
  {
    [(Vec3(0.0, 0.0, 1.0), [Vec3(-h.x, -h.y, h.z), Vec3(h.x, -h.y, h.z), Vec3(h.x, h.y, h.z), Vec3(-h.x, h.y, h.z)]),
     (Vec3(0.0, 0.0, -1.0), [Vec3(h.x, -h.y, -h.z), Vec3(-h.x, -h.y, -h.z), Vec3(-h.x, h.y, -h.z), Vec3(h.x, h.y, -h.z)]),
     (Vec3(0.0, 1.0, 0.0), [Vec3(-h.x, h.y, h.z), Vec3(h.x, h.y, h.z), Vec3(h.x, h.y, -h.z), Vec3(-h.x, h.y, -h.z)]),
     (Vec3(0.0, -1.0, 0.0), [Vec3(-h.x, -h.y, -h.z), Vec3(h.x, -h.y, -h.z), Vec3(h.x, -h.y, h.z), Vec3(-h.x, -h.y, h.z)]),
     (Vec3(1.0, 0.0, 0.0), [Vec3(h.x, -h.y, h.z), Vec3(h.x, -h.y, -h.z), Vec3(h.x, h.y, -h.z), Vec3(h.x, h.y, h.z)]),
     (Vec3(-1.0, 0.0, 0.0), [Vec3(-h.x, -h.y, -h.z), Vec3(-h.x, -h.y, h.z), Vec3(-h.x, h.y, h.z), Vec3(-h.x, h.y, -h.z)])]
  }

  function Dot(a: Vec3, b: Vec3): real { a.x * b.x + a.y * b.y + a.z * b.z }

  /** Each face's corners lie in the plane its normal faces, at distance `h` along that axis. */
  lemma FacesOutward(h: Vec3, f: nat, j: nat)
    requires f < 6 && j < 4
    ensures Dot(Faces(h)[f].0, Faces(h)[f].1[j]) ==
            Dot(Faces(h)[f].0, Vec3(if Faces(h)[f].0.x < 0.0 then -h.x else h.x,
                                    if Faces(h)[f].0.y < 0.0 then -h.y else h.y,
                                    if Faces(h)[f].0.z < 0.0 then -h.z else h.z))
  {
  }

  function FaceVertices(normal: Vec3, corners: seq<Vec3>, offset: Vec3, m: nat): (r: seq<AircraftVertex>)
    requires m <= |corners|
    ensures |r| == m
  {
    if m == 0 then [] else FaceVertices(normal, corners, offset, m - 1) + [AircraftVertex(Add(corners[m - 1], offset), normal)]
  }

  function BoxVerticesUpTo(faces: seq<(Vec3, seq<Vec3>)>, offset: Vec3, n: nat): (r: seq<AircraftVertex>)
    requires n <= |faces| && forall i :: 0 <= i < |faces| ==> |faces[i].1| == 4
    ensures |r| == 4 * n
  {
    if n == 0 then [] else BoxVerticesUpTo(faces, offset, n - 1) + FaceVertices(faces[n - 1].0, faces[n - 1].1, offset, 4)
  }

  /** The 24 vertices `appendBox` adds, four per face so each face has its own normal. */
  function BoxVertices(size: Vec3, offset: Vec3): (r: seq<AircraftVertex>)
    ensures |r| == 24
  {
    var f := Faces(Half(size));
    FaceVertices(f[0].0, f[0].1, offset, 4) + FaceVertices(f[1].0, f[1].1, offset, 4) +
    FaceVertices(f[2].0, f[2].1, offset, 4) + FaceVertices(f[3].0, f[3].1, offset, 4) +
    FaceVertices(f[4].0, f[4].1, offset, 4) + FaceVertices(f[5].0, f[5].1, offset, 4)
  }

  lemma BoxVerticesAllFaces(size: Vec3, offset: Vec3)
    ensures BoxVerticesUpTo(Faces(Half(size)), offset, 6) == BoxVertices(size, offset)
  {
    var f := Faces(Half(size));
    var q := seq(6, i requires 0 <= i < 6 => FaceVertices(f[i].0, f[i].1, offset, 4));
    assert BoxVerticesUpTo(f, offset, 1) == q[0];
    assert BoxVerticesUpTo(f, offset, 2) == q[0] + q[1];
    assert BoxVerticesUpTo(f, offset, 3) == q[0] + q[1] + q[2];
    assert BoxVerticesUpTo(f, offset, 4) == q[0] + q[1] + q[2] + q[3];
    assert BoxVerticesUpTo(f, offset, 5) == q[0] + q[1] + q[2] + q[3] + q[4];
  }

  /** The two triangles of the face whose four vertices start at `fb`. */
  function FaceTris(fb: int): (r: seq<int>)
    ensures InRange(r, fb, fb + 4)
  {
    [fb, fb + 1, fb + 2, fb, fb + 2, fb + 3]
  }

  function BoxIndicesUpTo(base: int, n: nat): (r: seq<int>)
    ensures |r| == 6 * n
  {
    if n == 0 then [] else BoxIndicesUpTo(base, n - 1) + FaceTris(base + 4 * (n - 1))
  }

  function BoxIndices(base: int): (r: seq<int>)
    ensures |r| == 36
  {
    FaceTris(base) + FaceTris(base + 4) + FaceTris(base + 8) +
    FaceTris(base + 12) + FaceTris(base + 16) + FaceTris(base + 20)
  }

  lemma BoxIndicesAllFaces(base: int)
    ensures BoxIndicesUpTo(base, 6) == BoxIndices(base)
  {
    assert BoxIndicesUpTo(base, 1) == FaceTris(base);
    assert BoxIndicesUpTo(base, 2) == FaceTris(base) + FaceTris(base + 4);
    assert BoxIndicesUpTo(base, 3) == FaceTris(base) + FaceTris(base + 4) + FaceTris(base + 8);
    assert BoxIndicesUpTo(base, 4) == FaceTris(base) + FaceTris(base + 4) + FaceTris(base + 8) + FaceTris(base + 12);
    assert BoxIndicesUpTo(base, 5) == FaceTris(base) + FaceTris(base + 4) + FaceTris(base + 8) + FaceTris(base + 12)
                                      + FaceTris(base + 16);
  }

  lemma SliceOfFront(front: seq<int>, back: seq<int>, lo: nat)
    requires lo + 6 <= |front|
    ensures (front + back)[lo .. lo + 6] == front[lo .. lo + 6]
  {
  }

  lemma SliceOfBack(front: seq<int>, back: seq<int>)
    requires |back| == 6
    ensures (front + back)[|front| .. |front| + 6] == back
  {
  }

  /** Face `f`'s six indices address only that face's four vertices. */
  lemma {:induction false} BoxFaceLocal(base: int, n: nat, f: nat)
    requires f < n
    ensures BoxIndicesUpTo(base, n)[6 * f .. 6 * f + 6] == FaceTris(base + 4 * f)
    ensures InRange(BoxIndicesUpTo(base, n)[6 * f .. 6 * f + 6], base + 4 * f, base + 4 * f + 4)
  {
    var prev := BoxIndicesUpTo(base, n - 1);
    var last := FaceTris(base + 4 * (n - 1));
    assert BoxIndicesUpTo(base, n) == prev + last;
    if f < n - 1 {
      BoxFaceLocal(base, n - 1, f);
      SliceOfFront(prev, last, 6 * f);
    } else {
      assert f == n - 1 && |prev| == 6 * f;
      SliceOfBack(prev, last);
      assert BoxIndicesUpTo(base, n)[6 * f .. 6 * f + 6] == last;
    }
  }

  lemma {:induction false} BoxIndicesRange(base: int, n: nat)
    ensures InRange(BoxIndicesUpTo(base, n), base, base + 4 * n)
  {
    if n > 0 {
      BoxIndicesRange(base, n - 1);
    }
  }

  /** A point at one of the eight corners of the box of half-size `h` centred at `offset`. */
  predicate AtCorner(p: Vec3, h: Vec3, offset: Vec3) {
    (p.x == offset.x + h.x || p.x == offset.x - h.x) &&
    (p.y == offset.y + h.y || p.y == offset.y - h.y) &&
    (p.z == offset.z + h.z || p.z == offset.z - h.z)
  }

  predicate IsCorner(c: Vec3, h: Vec3) {
    (c.x == h.x || c.x == -h.x) && (c.y == h.y || c.y == -h.y) && (c.z == h.z || c.z == -h.z)
  }

  lemma {:induction false} FaceAtCorners(normal: Vec3, corners: seq<Vec3>, h: Vec3, offset: Vec3, m: nat)
    requires m <= |corners| && forall j :: 0 <= j < |corners| ==> IsCorner(corners[j], h)
    ensures forall k :: 0 <= k < m ==> AtCorner(FaceVertices(normal, corners, offset, m)[k].position, h, offset)
  {
    if m > 0 {
      FaceAtCorners(normal, corners, h, offset, m - 1);
    }
  }

  lemma {:induction false} BoxAtCornersUpTo(h: Vec3, offset: Vec3, n: nat)
    requires n <= 6
    ensures forall k :: 0 <= k < 4 * n ==> AtCorner(BoxVerticesUpTo(Faces(h), offset, n)[k].position, h, offset)
  {
    if n > 0 {
      BoxAtCornersUpTo(h, offset, n - 1);
      var face := Faces(h)[n - 1];
      assert forall j :: 0 <= j < 4 ==> IsCorner(face.1[j], h);
      FaceAtCorners(face.0, face.1, h, offset, 4);
    }
  }

  /** Every box vertex sits at a corner of the box `size` centred at `offset`. */
  lemma BoxAtCorners(size: Vec3, offset: Vec3)
    ensures forall k :: 0 <= k < 24 ==> AtCorner(BoxVertices(size, offset)[k].position, Half(size), offset)
  {
    BoxAtCornersUpTo(Half(size), offset, 6);
    BoxVerticesAllFaces(size, offset);
  }

  /** `appendBox`: a box of `size` centred at `offset`, one quad per face. */
  method AppendBox(vertices: seq<AircraftVertex>, indices: seq<int>, size: Vec3, offset: Vec3)
    returns (vs: seq<AircraftVertex>, ixs: seq<int>)
    requires |vertices| + 24 <= IndexLimit
    ensures |vs| == |vertices| + 24 && vs[..|vertices|] == vertices
    ensures forall k :: 0 <= k < 24 ==> vs[|vertices| + k] == BoxVertices(size, offset)[k]
    ensures |ixs| == |indices| + 36 && ixs[..|indices|] == indices
    ensures forall k :: 0 <= k < 36 ==> ixs[|indices| + k] == BoxIndices(|vertices|)[k]
    ensures Indexes(vertices, indices) ==> Indexes(vs, ixs)
  {
    var faces := Faces(Half(size));
    vs := vertices;
    ixs := indices;
    for f := 0 to 6
      invariant vs == vertices + BoxVerticesUpTo(faces, offset, f)
      invariant ixs == indices + BoxIndicesUpTo(|vertices|, f)
    {
      var normal := faces[f].0;
      var corners := faces[f].1;
      var faceBase := |vs|;
      ghost var before := vs;
      for j := 0 to 4
        invariant vs == before + FaceVertices(normal, corners, offset, j)
      {
        vs := vs + [AircraftVertex(Add(corners[j], offset), normal)];
      }
      ixs := ixs + [faceBase, faceBase + 1, faceBase + 2, faceBase, faceBase + 2, faceBase + 3];
    }
    BoxIndicesRange(|vertices|, 6);
    BoxVerticesAllFaces(size, offset);
    BoxIndicesAllFaces(|vertices|);
    assert vs == vertices + BoxVertices(size, offset);
    assert ixs == indices + BoxIndices(|vertices|);
  }

  // ---------------------------------------------------------------- sphere

  /** The vertex at ring `lat`, meridian `lon`: its normal is the unit direction, scaled by `radius`. */
  function SpherePoint(radius: real, s: nat, lat: nat, lon: nat, offset: Vec3, trig: Trig): AircraftVertex
    requires s >= 2
  {
    var t := trig.cosSin(lat as real / (s / 2) as real * Pi);
    var p := trig.cosSin(Angle(lon, s));
    var normal := Vec3(t.y * p.x, t.x, t.y * p.y);
    AircraftVertex(Add(Scale(normal, radius), offset), normal)
  }

  function SphereRow(radius: real, s: nat, lat: nat, m: nat, offset: Vec3, trig: Trig): (r: seq<AircraftVertex>)
    requires s >= 2
    ensures |r| == m
  {
    if m == 0 then [] else SphereRow(radius, s, lat, m - 1, offset, trig) + [SpherePoint(radius, s, lat, m - 1, offset, trig)]
  }

  function SphereRows(radius: real, s: nat, n: nat, offset: Vec3, trig: Trig): (r: seq<AircraftVertex>)
    requires s >= 2
    ensures |r| == n * (s + 1)
  {
    if n == 0 then [] else SphereRows(radius, s, n - 1, offset, trig) + SphereRow(radius, s, n - 1, s + 1, offset, trig)
  }

  /** The vertices `appendSphere` adds: `s/2 + 1` rings of `s + 1` vertices, pole to pole. */
  function SphereVertices(radius: real, s: nat, offset: Vec3, trig: Trig): (r: seq<AircraftVertex>)
    requires s >= 2
    ensures |r| == (s / 2 + 1) * (s + 1)
  {
    SphereRows(radius, s, s / 2 + 1, offset, trig)
  }

  /** The two triangles between rings `lat` and `lat + 1` at meridian `lon`. */
  function SphereQuad(base: int, s: nat, lat: nat, lon: nat): seq<int> {
    var tl := base + lat * (s + 1) + lon;
    [tl, tl + (s + 1), tl + 1, tl + 1, tl + (s + 1), tl + (s + 1) + 1]
  }

  function SphereIndexRow(base: int, s: nat, lat: nat, m: nat): (r: seq<int>)
    ensures |r| == 6 * m
  {
    if m == 0 then [] else SphereIndexRow(base, s, lat, m - 1) + SphereQuad(base, s, lat, m - 1)
  }

  function SphereIndexRows(base: int, s: nat, n: nat): (r: seq<int>)
    ensures |r| == 6 * s * n
  {
    if n == 0 then [] else SphereIndexRows(base, s, n - 1) + SphereIndexRow(base, s, n - 1, s)
  }

  function SphereIndices(base: int, s: nat): (r: seq<int>)
    ensures |r| == 6 * s * (s / 2)
  {
    SphereIndexRows(base, s, s / 2)
  }

  lemma {:induction false} SphereIndexRowRange(base: int, s: nat, lat: nat, m: nat)
    requires m <= s
    ensures InRange(SphereIndexRow(base, s, lat, m), base + lat * (s + 1), base + lat * (s + 1) + 2 * (s + 1))
  {
    if m > 0 {
      SphereIndexRowRange(base, s, lat, m - 1);
    }
  }

  lemma {:induction false} SphereIndexRowsRange(base: int, s: nat, n: nat)
    ensures InRange(SphereIndexRows(base, s, n), base, base + (n + 1) * (s + 1))
  {
    if n > 0 {
      SphereIndexRowsRange(base, s, n - 1);
      SphereIndexRowRange(base, s, n - 1, s);
      assert (n - 1) * (s + 1) + 2 * (s + 1) == (n + 1) * (s + 1);
      assert n * (s + 1) <= (n + 1) * (s + 1);
    }
  }

  /** A sphere's indices stay within its own `(s/2 + 1)(s + 1)` vertices. */
  lemma SphereIndicesRange(base: int, s: nat)
    ensures InRange(SphereIndices(base, s), base, base + (s / 2 + 1) * (s + 1))
  {
    SphereIndexRowsRange(base, s, s / 2);
  }

  /** A vertex `radius` from `offset` along its own normal. */
  predicate OnSphere(v: AircraftVertex, radius: real, offset: Vec3) {
    v.position == Add(Scale(v.normal, radius), offset)
  }

  lemma {:induction false} SphereRowOnSphere(radius: real, s: nat, lat: nat, m: nat, offset: Vec3, trig: Trig)
    requires s >= 2
    ensures forall k :: 0 <= k < m ==> OnSphere(SphereRow(radius, s, lat, m, offset, trig)[k], radius, offset)
  {
    if m > 0 {
      SphereRowOnSphere(radius, s, lat, m - 1, offset, trig);
    }
  }

  lemma {:induction false} SphereRowsOnSphere(radius: real, s: nat, n: nat, offset: Vec3, trig: Trig)
    requires s >= 2
    ensures forall k :: 0 <= k < |SphereRows(radius, s, n, offset, trig)| ==>
      OnSphere(SphereRows(radius, s, n, offset, trig)[k], radius, offset)
  {
    if n > 0 {
      SphereRowsOnSphere(radius, s, n - 1, offset, trig);
      SphereRowOnSphere(radius, s, n - 1, s + 1, offset, trig);
    }
  }

  /** Every sphere vertex is `radius` from the centre along its normal. */
  lemma SphereShape(radius: real, s: nat, offset: Vec3, trig: Trig)
    requires s >= 2
    ensures forall k :: 0 <= k < |SphereVertices(radius, s, offset, trig)| ==>
      OnSphere(SphereVertices(radius, s, offset, trig)[k], radius, offset)
  {
    SphereRowsOnSphere(radius, s, s / 2 + 1, offset, trig);
  }

  /** `appendSphere`: a UV sphere of `segments` meridians and `segments / 2` bands. */
  method AppendSphere(vertices: seq<AircraftVertex>, indices: seq<int>, radius: real, segments: nat, offset: Vec3, trig: Trig)
    returns (vs: seq<AircraftVertex>, ixs: seq<int>)
    requires segments >= 2
    requires |vertices| + (segments / 2 + 1) * (segments + 1) <= IndexLimit
    ensures |vs| == |vertices| + (segments / 2 + 1) * (segments + 1) && vs[..|vertices|] == vertices
    ensures forall k :: 0 <= k < (segments / 2 + 1) * (segments + 1) ==> vs[|vertices| + k] == SphereVertices(radius, segments, offset, trig)[k]
    ensures |ixs| == |indices| + 6 * segments * (segments / 2) && ixs[..|indices|] == indices
    ensures forall k :: 0 <= k < 6 * segments * (segments / 2) ==> ixs[|indices| + k] == SphereIndices(|vertices|, segments)[k]
    ensures Indexes(vertices, indices) ==> Indexes(vs, ixs)
  {
    var base := |vertices|;
    vs := AppendSphereRings(vertices, radius, segments, offset, trig);
    ixs := AppendSphereBands(indices, base, segments);
    SphereIndicesRange(base, segments);
    AppendKeepsIndexes(vertices, indices, SphereVertices(radius, segments, offset, trig), SphereIndices(base, segments));
    assert vs == vertices + SphereVertices(radius, segments, offset, trig);
    assert ixs == indices + SphereIndices(|vertices|, segments);
  }

  /** The vertex loops of `appendSphere`: ring by ring from the north pole. */
  method AppendSphereRings(vertices: seq<AircraftVertex>, radius: real, segments: nat, offset: Vec3, trig: Trig)
    returns (vs: seq<AircraftVertex>)
    requires segments >= 2
    ensures vs == vertices + SphereVertices(radius, segments, offset, trig)
  {
    var rings := segments / 2;
    vs := vertices;
    for lat := 0 to rings + 1
      invariant vs == vertices + SphereRows(radius, segments, lat, offset, trig)
    {
      ghost var before := vs;
      for lon := 0 to segments + 1
        invariant vs == before + SphereRow(radius, segments, lat, lon, offset, trig)
      {
        vs := vs + [SpherePoint(radius, segments, lat, lon, offset, trig)];
      }
    }
  }

  /** The index loops of `appendSphere`: two triangles per band and meridian. */
  method AppendSphereBands(indices: seq<int>, base: nat, segments: nat) returns (ixs: seq<int>)
    ensures ixs == indices + SphereIndices(base, segments)
  {
    var rings := segments / 2;
    var stride := segments + 1;
    ixs := indices;
    for lat := 0 to rings
      invariant ixs == indices + SphereIndexRows(base, segments, lat)
    {
      ghost var before := ixs;
      for lon := 0 to segments
        invariant ixs == before + SphereIndexRow(base, segments, lat, lon)
      {
        var tl := base + lat * stride + lon;
        var tr := tl + 1;
        var bl := tl + stride;
        var br := bl + 1;
        ixs := ixs + [tl, bl, tr, tr, bl, br];
      }
    }
  }

  // ---------------------------------------------------------------- builders

  /** `createMesh`: the buffers with their counts; a mesh built from valid indices is valid. */
  function CreateMesh(vertices: seq<AircraftVertex>, indices: seq<int>): (m: AircraftMesh)
    ensures m.vertices == vertices && m.indices == indices
    ensures Indexes(vertices, indices) <==> MeshOk(m)
  {
    AircraftMesh(vertices, indices, |vertices|, |indices|)
  }

  /** Vertex and index counts of each category's body mesh. */
  function BodyCounts(c: Category): (nat, nat) {
    match c
    case Jet => (183, 420)
    case Widebody => (251, 612)
    case Helicopter => (127, 360)
    case Small => (115, 228)
    case Military => (105, 168)
    case Regional => (183, 420)
  }

  const Origin := Vec3(0.0, 0.0, 0.0)

  /** Sizes of the box-shaped parts and the centres of those not on the origin. */
  const JetWing := Vec3(5.0, 0.15, 1.5)
  const JetFin := Vec3(0.15, 1.2, 1.0)
  const JetFinAt := Vec3(0.0, 0.6, -1.5)
  const JetStabiliser := Vec3(2.0, 0.1, 0.6)
  const JetStabiliserAt := Vec3(0.0, 0.6, -1.8)
  const WidebodyWing := Vec3(8.0, 0.2, 2.2)
  const WidebodyFin := Vec3(0.15, 1.5, 1.2)
  const WidebodyFinAt := Vec3(0.0, 0.8, -2.0)
  const WidebodyStabiliser := Vec3(2.5, 0.12, 0.8)
  const WidebodyStabiliserAt := Vec3(0.0, 0.8, -2.3)
  const Skid := Vec3(0.08, 0.08, 2.0)
  const LeftSkidAt := Vec3(-0.5, -0.5, 0.0)
  const RightSkidAt := Vec3(0.5, -0.5, 0.0)
  const SmallWing := Vec3(4.0, 0.08, 0.8)
  const SmallTail := Vec3(0.1, 0.8, 0.6)
  const SmallTailAt := Vec3(0.0, 0.4, -1.0)
  const SmallStabiliser := Vec3(1.5, 0.06, 0.4)
  const SmallStabiliserAt := Vec3(0.0, 0.4, -1.1)
  const MilitaryFuselage := Vec3(0.6, 0.4, 4.5)
  const MilitaryWing := Vec3(6.0, 0.1, 3.0)
  const MilitaryTail := Vec3(0.1, 1.0, 0.8)
  const MilitaryLeftTailAt := Vec3(-0.5, 0.4, -1.8)
  const MilitaryRightTailAt := Vec3(0.5, 0.4, -1.8)
  const MainBlade := Vec3(6.0, 0.05, 0.2)
  const MainBladeAt := Vec3(0.0, 0.65, 0.0)
  const CrossBlade := Vec3(0.2, 0.05, 6.0)
  const CrossBladeAt := Vec3(0.0, 0.65, 0.0)
  const TailRotor := Vec3(0.05, 1.2, 0.15)
  const TailRotorAt := Vec3(0.0, 0.1, -2.75)
  const PropellerBlades := Vec3(0.08, 1.2, 0.08)
  const PropellerBladesAt := Vec3(0.0, 0.0, 1.55)

  /** `buildJet`: fuselage, nose, wings, fin, stabiliser and two engines. */
  method BuildJet(trig: Trig) returns (m: AircraftMesh)
    ensures MeshOk(m) && (m.vertexCount, m.indexCount) == BodyCounts(Jet)
  {
    var vs: seq<AircraftVertex> := [];
    var ixs: seq<int> := [];
    vs, ixs := AppendCylinder(vs, ixs, 0.4, 4.0, Segments, Origin, trig);
    vs, ixs := AppendCone(vs, ixs, 0.4, 1.2, Segments, Vec3(0.0, 0.0, 2.0), trig);
    vs, ixs := AppendBox(vs, ixs, JetWing, Origin);
    vs, ixs := AppendBox(vs, ixs, JetFin, JetFinAt);
    vs, ixs := AppendBox(vs, ixs, JetStabiliser, JetStabiliserAt);
    vs, ixs := AppendCylinder(vs, ixs, 0.25, 0.8, Segments, Vec3(-1.5, -0.3, 0.5), trig);
    vs, ixs := AppendCylinder(vs, ixs, 0.25, 0.8, Segments, Vec3(1.5, -0.3, 0.5), trig);
    m := CreateMesh(vs, ixs);
  }

  /** `buildWidebody`: a larger jet with four engines. */
  method BuildWidebody(trig: Trig) returns (m: AircraftMesh)
    ensures MeshOk(m) && (m.vertexCount, m.indexCount) == BodyCounts(Widebody)
  {
    var vs: seq<AircraftVertex> := [];
    var ixs: seq<int> := [];
    vs, ixs := AppendCylinder(vs, ixs, 0.7, 5.5, Segments, Origin, trig);
    vs, ixs := AppendCone(vs, ixs, 0.7, 1.5, Segments, Vec3(0.0, 0.0, 2.75), trig);
    vs, ixs := AppendBox(vs, ixs, WidebodyWing, Origin);
    vs, ixs := AppendBox(vs, ixs, WidebodyFin, WidebodyFinAt);
    vs, ixs := AppendBox(vs, ixs, WidebodyStabiliser, WidebodyStabiliserAt);
    var engines := [-2.5, -1.2, 1.2, 2.5];
    for k := 0 to |engines|
      invariant |vs| == 115 + 34 * k && |ixs| == 228 + 96 * k && Indexes(vs, ixs)
    {
      vs, ixs := AppendCylinder(vs, ixs, 0.3, 1.0, Segments, Vec3(engines[k], -0.4, 0.5), trig);
    }
    m := CreateMesh(vs, ixs);
  }

  /** `buildHelicopter`: spherical cabin, tail boom and two skids. */
  method BuildHelicopter(trig: Trig) returns (m: AircraftMesh)
    ensures MeshOk(m) && (m.vertexCount, m.indexCount) == BodyCounts(Helicopter)
  {
    var vs: seq<AircraftVertex> := [];
    var ixs: seq<int> := [];
    vs, ixs := AppendSphere(vs, ixs, 0.6, Segments, Origin, trig);
    vs, ixs := AppendCylinder(vs, ixs, 0.15, 2.5, Segments, Vec3(0.0, 0.0, -1.5), trig);
    vs, ixs := AppendBox(vs, ixs, Skid, LeftSkidAt);
    vs, ixs := AppendBox(vs, ixs, Skid, RightSkidAt);
    m := CreateMesh(vs, ixs);
  }

  /** `buildSmallProp`: fuselage, nose, wings, fin and stabiliser. */
  method BuildSmallProp(trig: Trig) returns (m: AircraftMesh)
    ensures MeshOk(m) && (m.vertexCount, m.indexCount) == BodyCounts(Small)
  {
    var vs: seq<AircraftVertex> := [];
    var ixs: seq<int> := [];
    vs, ixs := AppendCylinder(vs, ixs, 0.25, 2.5, Segments, Origin, trig);
    vs, ixs := AppendCone(vs, ixs, 0.3, 0.6, Segments, Vec3(0.0, 0.0, 1.25), trig);
    vs, ixs := AppendBox(vs, ixs, SmallWing, Origin);
    vs, ixs := AppendBox(vs, ixs, SmallTail, SmallTailAt);
    vs, ixs := AppendBox(vs, ixs, SmallStabiliser, SmallStabiliserAt);
    m := CreateMesh(vs, ixs);
  }

  /** `buildMilitary`: box fuselage, nose, delta wing and two tails. */
  method BuildMilitary(trig: Trig) returns (m: AircraftMesh)
    ensures MeshOk(m) && (m.vertexCount, m.indexCount) == BodyCounts(Military)
  {
    var vs: seq<AircraftVertex> := [];
    var ixs: seq<int> := [];
    vs, ixs := AppendBox(vs, ixs, MilitaryFuselage, Origin);
    vs, ixs := AppendCone(vs, ixs, 0.35, 1.2, Segments, Vec3(0.0, 0.0, 2.25), trig);
    vs, ixs := AppendBox(vs, ixs, MilitaryWing, Origin);
    vs, ixs := AppendBox(vs, ixs, MilitaryTail, MilitaryLeftTailAt);
    vs, ixs := AppendBox(vs, ixs, MilitaryTail, MilitaryRightTailAt);
    m := CreateMesh(vs, ixs);
  }

  /** `buildRegional`: the jet at 0.8 scale. */
  method BuildRegional(trig: Trig) returns (m: AircraftMesh)
    ensures MeshOk(m) && (m.vertexCount, m.indexCount) == BodyCounts(Regional)
  {
    var s := 0.8;
    var vs: seq<AircraftVertex> := [];
    var ixs: seq<int> := [];
    vs, ixs := AppendCylinder(vs, ixs, 0.4 * s, 4.0 * s, Segments, Origin, trig);
    vs, ixs := AppendCone(vs, ixs, 0.4 * s, 1.2 * s, Segments, Vec3(0.0, 0.0, 2.0 * s), trig);
    vs, ixs := AppendBox(vs, ixs, Vec3(5.0 * s, 0.15 * s, 1.5 * s), Origin);
    vs, ixs := AppendBox(vs, ixs, Vec3(0.15 * s, 1.2 * s, 1.0 * s), Vec3(0.0, 0.6 * s, -1.5 * s));
    vs, ixs := AppendBox(vs, ixs, Vec3(2.0 * s, 0.1 * s, 0.6 * s), Vec3(0.0, 0.6 * s, -1.8 * s));
    vs, ixs := AppendCylinder(vs, ixs, 0.25 * s, 0.8 * s, Segments, Vec3(-1.5 * s, -0.3 * s, 0.5 * s), trig);
    vs, ixs := AppendCylinder(vs, ixs, 0.25 * s, 0.8 * s, Segments, Vec3(1.5 * s, -0.3 * s, 0.5 * s), trig);
    m := CreateMesh(vs, ixs);
  }

  /** `buildRotor`: two crossed main blades and a tail rotor. */
  method BuildRotor() returns (m: AircraftMesh)
    ensures MeshOk(m) && m.vertexCount == 72 && m.indexCount == 108
  {
    var vs: seq<AircraftVertex> := [];
    var ixs: seq<int> := [];
    vs, ixs := AppendBox(vs, ixs, MainBlade, MainBladeAt);
    vs, ixs := AppendBox(vs, ixs, CrossBlade, CrossBladeAt);
    vs, ixs := AppendBox(vs, ixs, TailRotor, TailRotorAt);
    m := CreateMesh(vs, ixs);
  }

  /** `buildPropeller`: one blade pair at the nose. */
  method BuildPropeller() returns (m: AircraftMesh)
    ensures MeshOk(m) && m.vertexCount == 24 && m.indexCount == 36
  {
    var vs: seq<AircraftVertex> := [];
    var ixs: seq<int> := [];
    vs, ixs := AppendBox(vs, ixs, PropellerBlades, PropellerBladesAt);
    m := CreateMesh(vs, ixs);
  }

  /** The body mesh of every category and the two spinning-part meshes. */
  class AircraftMeshLibrary {
    var bodyMeshes: map<Category, AircraftMesh>
    var rotorMesh: Option<AircraftMesh>
    var propellerMesh: Option<AircraftMesh>

    constructor (trig: Trig)
      ensures forall c: Category :: c in bodyMeshes && MeshOk(bodyMeshes[c]) &&
                                    (bodyMeshes[c].vertexCount, bodyMeshes[c].indexCount) == BodyCounts(c)
      ensures rotorMesh.Some? && MeshOk(rotorMesh.value) && rotorMesh.value.vertexCount == 72
      ensures propellerMesh.Some? && MeshOk(propellerMesh.value) && propellerMesh.value.vertexCount == 24
    {
      var jet := BuildJet(trig);
      var widebody := BuildWidebody(trig);
      var helicopter := BuildHelicopter(trig);
      var small := BuildSmallProp(trig);
      var military := BuildMilitary(trig);
      var regional := BuildRegional(trig);
      var meshes := map[Jet := jet, Widebody := widebody, Helicopter := helicopter,
                        Small := small, Military := military, Regional := regional];
      forall c: Category
        ensures c in meshes && MeshOk(meshes[c]) && (meshes[c].vertexCount, meshes[c].indexCount) == BodyCounts(c)
      {
        match c
        case Jet =>
        case Widebody =>
        case Helicopter =>
        case Small =>
        case Military =>
        case Regional =>
      }
      bodyMeshes := meshes;
      var rotor := BuildRotor();
      var propeller := BuildPropeller();
      rotorMesh := Some(rotor);
      propellerMesh := Some(propeller);
    }

    /** `mesh(for:)`: the category's own mesh, or the jet mesh when it has none. */
    function MeshFor(category: Category): (m: AircraftMesh)
      reads this
      requires Jet in bodyMeshes
      ensures m in bodyMeshes.Values
      ensures category in bodyMeshes ==> m == bodyMeshes[category]
      ensures category !in bodyMeshes ==> m == bodyMeshes[Jet]
    {
      if category in bodyMeshes then bodyMeshes[category] else bodyMeshes[Jet]
    }
  }
}
