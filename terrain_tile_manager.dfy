/**
 * The terrain cache: Terrarium elevation tiles are decoded into 256×256
 * heights, turned into a 33×33-vertex displaced grid, and kept in an LRU
 * cache of 250 meshes with the same hit/miss/pending discipline as map tiles.
 */
module TerrainTiles {
  import opened Wrappers
  import opened Text
  import opened Geometry
  import opened Tiles
  import opened TileCache

  const MaxCacheSize: nat := 250
  const Subdivisions: nat := 32
  const VertsPerSide: nat := 33
  const VertexCount: nat := 1089
  const TriangleCount: nat := 2048
  const IndexCount: nat := 6144
  const SampleCount: nat := 65536
  const TerrainScaleFactor: real := 0.003

  newtype byte = x: int | 0 <= x < 256

  /** A decoded image: its size and the RGBA bytes drawn into the pixel buffer, row by row. */
  datatype Image = Image(width: nat, height: nat, rgba: seq<byte>)

  /** The pixel buffer is zero-filled before drawing, so bytes past what was drawn read as 0. */
  function ByteAt(rgba: seq<byte>, k: nat): int
  {
    if k < |rgba| then rgba[k] as int else 0
  }

  /** The Terrarium encoding: metres = R·256 + G + B/256 − 32768. */
  function Terrarium(r: int, g: int, b: int): real
  {
    (r as real * 256.0 + g as real + b as real / 256.0) - 32768.0
  }

  /** Terrarium heights span [−32768, 32768) metres. */
  lemma TerrariumRange(r: int, g: int, b: int)
    requires 0 <= r < 256 && 0 <= g < 256 && 0 <= b < 256
    ensures -32768.0 <= Terrarium(r, g, b) < 32768.0
  {
  }

  function ElevationAt(rgba: seq<byte>, i: nat): real
  {
    Terrarium(ByteAt(rgba, 4 * i), ByteAt(rgba, 4 * i + 1), ByteAt(rgba, 4 * i + 2))
  }

  /** `decodeTerrainPNG`: only a 256×256 image yields heights, one per pixel. */
  function Decode(image: Option<Image>): (r: Option<seq<real>>)
    ensures r.Some? <==> image.Some? && image.value.width == 256 && image.value.height == 256
    ensures r.Some? ==>
      (|r.value| == SampleCount && forall i :: 0 <= i < SampleCount ==> -32768.0 <= r.value[i] < 32768.0)
  {
    if image.None? || image.value.width != 256 || image.value.height != 256 then None
    else
      var heights := seq(SampleCount, i requires 0 <= i => ElevationAt(image.value.rgba, i));
      assert forall i :: 0 <= i < SampleCount ==> -32768.0 <= heights[i] < 32768.0 by {
        forall i | 0 <= i < SampleCount
          ensures -32768.0 <= heights[i] < 32768.0
        {
          var rgba := image.value.rgba;
          TerrariumRange(ByteAt(rgba, 4 * i), ByteAt(rgba, 4 * i + 1), ByteAt(rgba, 4 * i + 2));
        }
      }
      Some(heights)
  }

  /** The decoding loop over all pixels, proved against `Decode`. */
  method DecodeTerrainPNG(image: Option<Image>) returns (r: Option<seq<real>>)
    ensures r == Decode(image)
  {
    if image.None? {
      return None;
    }
    var img := image.value;
    if img.width != 256 || img.height != 256 {
      return None;
    }
    var elevations := new real[SampleCount](_ => 0.0);
    for i := 0 to SampleCount
      invariant forall k :: 0 <= k < i ==> elevations[k] == ElevationAt(img.rgba, k)
    {
      var offset := i * 4;
      elevations[i] := Terrarium(ByteAt(img.rgba, offset), ByteAt(img.rgba, offset + 1), ByteAt(img.rgba, offset + 2));
    }
    r := Some(elevations[..]);
    assert elevations[..] == seq(SampleCount, i requires 0 <= i => ElevationAt(img.rgba, i));
  }

  /** A tile's extent in world coordinates (x west to east, z north to south). */
  datatype WorldRect = WorldRect(minX: real, maxX: real, minZ: real, maxZ: real)

  datatype TerrainVertex = TerrainVertex(position: Vec3, texCoord: Vec2, normal: Vec3)

  datatype TerrainMesh = TerrainMesh(vertices: seq<TerrainVertex>, indices: seq<int>, indexCount: nat)

  function Min(a: int, b: int): int { if a < b then a else b }
  function Max(a: int, b: int): int { if a < b then b else a }
  function MaxReal(a: real, b: real): real { if a < b then b else a }

  /** The elevation column (or row) grid line `n` samples: `min(Int(n/32 · 255), 255)`. */
  function SampleIndex(n: nat): (s: nat)
    ensures s <= 255
  {
    Min((n * 255) / 32, 255)
  }

  /** The grid's edges sample the image's edges, and every sample index is inside the 256×256 heights. */
  lemma SampleInRange(ix: nat, iy: nat)
    ensures SampleIndex(0) == 0 && SampleIndex(Subdivisions) == 255
    ensures 0 <= SampleIndex(iy) * 256 + SampleIndex(ix) < SampleCount
  {
  }

  /** Vertex (ix, iy) before normals: spread over the tile's rectangle, raised by the non-negative sampled height. */
  function GridVertex(rect: WorldRect, elevations: seq<real>, ix: nat, iy: nat): (v: TerrainVertex)
    requires |elevations| == SampleCount
    ensures v.position.y >= 0.0
    ensures elevations[SampleIndex(iy) * 256 + SampleIndex(ix)] <= 0.0 ==> v.position.y == 0.0
  {
    var u := ix as real / Subdivisions as real;
    var v := iy as real / Subdivisions as real;
    var worldX := rect.minX + u * (rect.maxX - rect.minX);
    var worldZ := rect.minZ + v * (rect.maxZ - rect.minZ);
    var elevation := elevations[SampleIndex(iy) * 256 + SampleIndex(ix)];
    var worldY := MaxReal(0.0, elevation) * TerrainScaleFactor;
    TerrainVertex(Vec3(worldX, worldY, worldZ), Vec2(u, v), Vec3(0.0, 1.0, 0.0))
  }

  /** Vertex `k` of the row-major grid. */
  function GridAt(rect: WorldRect, elevations: seq<real>, k: nat): TerrainVertex
    requires |elevations| == SampleCount
  {
    GridVertex(rect, elevations, k % VertsPerSide, k / VertsPerSide)
  }

  function Sub(a: Vec3, b: Vec3): Vec3
  {
    Vec3(a.x - b.x, a.y - b.y, a.z - b.z)
  }

  /** The four neighbours of grid point (ix, iy), clamped at the edges: left, right, up, down. */
  function Neighbours(ix: nat, iy: nat): (n: (nat, nat, nat, nat))
    requires ix <= Subdivisions && iy <= Subdivisions
    ensures n.0 < VertexCount && n.1 < VertexCount && n.2 < VertexCount && n.3 < VertexCount
    ensures n.0 / VertsPerSide == iy && n.1 / VertsPerSide == iy
    ensures n.2 % VertsPerSide == ix && n.3 % VertsPerSide == ix
  {
    var left := iy * VertsPerSide + Max(ix - 1, 0);
    var right := iy * VertsPerSide + Min(ix + 1, Subdivisions);
    var up := Max(iy - 1, 0) * VertsPerSide + ix;
    var down := Min(iy + 1, Subdivisions) * VertsPerSide + ix;
    DivModUnique(left, VertsPerSide, iy, Max(ix - 1, 0));
    DivModUnique(right, VertsPerSide, iy, Min(ix + 1, Subdivisions));
    DivModUnique(up, VertsPerSide, Max(iy - 1, 0), ix);
    DivModUnique(down, VertsPerSide, Min(iy + 1, Subdivisions), ix);
    (left, right, up, down)
  }

  /**
   * The normal at vertex `k` from the neighbour differences; `normalOf`
   * stands for the cross product and its normalisation (or straight up when
   * the cross product is nearly zero).
   */
  function ShadedAt(grid: seq<TerrainVertex>, k: nat, normalOf: (Vec3, Vec3) -> Vec3): (v: TerrainVertex)
    requires |grid| == VertexCount && k < VertexCount
    ensures v.position == grid[k].position && v.texCoord == grid[k].texCoord
  {
    var n := Neighbours(k % VertsPerSide, k / VertsPerSide);
    var dx := Sub(grid[n.1].position, grid[n.0].position);
    var dz := Sub(grid[n.3].position, grid[n.2].position);
    grid[k].(normal := normalOf(dz, dx))
  }

  /** Corner `c` (0 to 5) of quad (ix, iy): top-left, bottom-left, top-right, top-right, bottom-left, bottom-right. */
  function QuadCorner(ix: nat, iy: nat, c: nat): int
  {
    var topLeft := iy * VertsPerSide + ix;
    var bottomLeft := (iy + 1) * VertsPerSide + ix;
    if c == 0 then topLeft
    else if c == 1 || c == 4 then bottomLeft
    else if c == 2 || c == 3 then topLeft + 1
    else bottomLeft + 1
  }

  /** Entry `j` of the index buffer: quads row-major, six indices each. */
  function IndexAt(j: nat): int
  {
    var q := j / 6;
    QuadCorner(q % Subdivisions, q / Subdivisions, j % 6)
  }

  /** `buildTerrainMesh` when both GPU buffers can be made. */
  function MeshFor(rect: WorldRect, elevations: seq<real>, normalOf: (Vec3, Vec3) -> Vec3): TerrainMesh
    requires |elevations| == SampleCount
  {
    var grid := seq(VertexCount, k requires 0 <= k => GridAt(rect, elevations, k));
    TerrainMesh(
      seq(VertexCount, k requires 0 <= k < VertexCount => ShadedAt(grid, k, normalOf)),
      seq(IndexCount, j requires 0 <= j => IndexAt(j)),
      IndexCount)
  }

  /** Every index names one of the 33×33 vertices. */
  lemma IndicesInRange(j: nat)
    requires j < IndexCount
    ensures 0 <= IndexAt(j) < VertexCount
  {
    var q := j / 6;
    assert q < 1024;
    var ix := q % Subdivisions;
    var iy := q / Subdivisions;
    assert ix <= 31 && iy <= 31;
    assert (iy + 1) * VertsPerSide + ix + 1 <= 32 * 33 + 32;
  }

  /** Each triangle's three corners are distinct vertices, and the two triangles of a quad share its top-right/bottom-left diagonal. */
  lemma TrianglesWellFormed(ix: nat, iy: nat)
    requires ix < Subdivisions && iy < Subdivisions
    ensures QuadCorner(ix, iy, 0) != QuadCorner(ix, iy, 1) && QuadCorner(ix, iy, 1) != QuadCorner(ix, iy, 2) && QuadCorner(ix, iy, 2) != QuadCorner(ix, iy, 0)
    ensures QuadCorner(ix, iy, 3) != QuadCorner(ix, iy, 4) && QuadCorner(ix, iy, 4) != QuadCorner(ix, iy, 5) && QuadCorner(ix, iy, 5) != QuadCorner(ix, iy, 3)
    ensures QuadCorner(ix, iy, 3) == QuadCorner(ix, iy, 2) && QuadCorner(ix, iy, 4) == QuadCorner(ix, iy, 1)
    ensures QuadCorner(ix, iy, 5) == QuadCorner(ix, iy, 0) + VertsPerSide + 1
  {
  }

  /** The index buffer entries of quad (ix, iy) are entries 6·(32·iy + ix) to 6·(32·iy + ix) + 5. */
  lemma QuadEntries(ix: nat, iy: nat, c: nat)
    requires ix < Subdivisions && iy < Subdivisions && c < 6
    ensures (iy * Subdivisions + ix) * 6 + c < IndexCount
    ensures IndexAt((iy * Subdivisions + ix) * 6 + c) == QuadCorner(ix, iy, c)
  {
    var q := iy * Subdivisions + ix;
    DivModUnique(q * 6 + c, 6, q, c);
    DivModUnique(q, Subdivisions, iy, ix);
  }

  /** `buildTerrainMesh`: vertex, index and normal passes, proved against `MeshFor`; None when a buffer cannot be made. */
  method BuildTerrainMesh(rect: WorldRect, elevations: seq<real>, normalOf: (Vec3, Vec3) -> Vec3, buffersMade: bool)
    returns (mesh: Option<TerrainMesh>)
    requires |elevations| == SampleCount
    ensures mesh == (if buffersMade then Some(MeshFor(rect, elevations, normalOf)) else None)
  {
    var vertices := new TerrainVertex[VertexCount](_ => TerrainVertex(Vec3(0.0, 0.0, 0.0), Vec2(0.0, 0.0), Vec3(0.0, 1.0, 0.0)));
    PlaceVertices(vertices, rect, elevations);
    var indices := new int[IndexCount](_ => 0);
    FillIndices(indices);
    ghost var grid := vertices[..];
    ShadeVertices(vertices, normalOf);
    if !buffersMade {
      return None;
    }
    mesh := Some(TerrainMesh(vertices[..], indices[..], IndexCount));
    assert vertices[..] == seq(VertexCount, k requires 0 <= k < VertexCount => ShadedAt(grid, k, normalOf));
  }

  /** The vertex pass. */
  method PlaceVertices(vertices: array<TerrainVertex>, rect: WorldRect, elevations: seq<real>)
    requires vertices.Length == VertexCount && |elevations| == SampleCount
    modifies vertices
    ensures vertices[..] == seq(VertexCount, k requires 0 <= k => GridAt(rect, elevations, k))
  {
    for iy := 0 to VertsPerSide
      invariant forall k :: 0 <= k < iy * VertsPerSide ==> vertices[k] == GridAt(rect, elevations, k)
    {
      for ix := 0 to VertsPerSide
        invariant forall k :: 0 <= k < iy * VertsPerSide + ix ==> vertices[k] == GridAt(rect, elevations, k)
      {
        var idx := iy * VertsPerSide + ix;
        DivModUnique(idx, VertsPerSide, iy, ix);
        vertices[idx] := GridVertex(rect, elevations, ix, iy);
      }
    }
  }

  /** The index pass: two triangles per quad, written in order. */
  method FillIndices(indices: array<int>)
    requires indices.Length == IndexCount
    modifies indices
    ensures indices[..] == seq(IndexCount, j requires 0 <= j => IndexAt(j))
  {
    var iIdx := 0;
    for iy := 0 to Subdivisions
      invariant iIdx == iy * Subdivisions * 6
      invariant forall j :: 0 <= j < iIdx ==> indices[j] == IndexAt(j)
    {
      for ix := 0 to Subdivisions
        invariant iIdx == (iy * Subdivisions + ix) * 6
        invariant forall j :: 0 <= j < iIdx ==> indices[j] == IndexAt(j)
      {
        WriteQuad(indices, iIdx, ix, iy);
        iIdx := iIdx + 6;
      }
    }
  }

  /** One quad's six indices at `at`. */
  method WriteQuad(indices: array<int>, at: nat, ix: nat, iy: nat)
    requires indices.Length == IndexCount && ix < Subdivisions && iy < Subdivisions
    requires at == (iy * Subdivisions + ix) * 6
    modifies indices
    ensures forall j :: 0 <= j < indices.Length && !(at <= j < at + 6) ==> indices[j] == old(indices[j])
    ensures forall j :: at <= j < at + 6 ==> indices[j] == IndexAt(j)
  {
    var topLeft := iy * VertsPerSide + ix;
    var topRight := topLeft + 1;
    var bottomLeft := (iy + 1) * VertsPerSide + ix;
    var bottomRight := bottomLeft + 1;
    indices[at] := topLeft;
    indices[at + 1] := bottomLeft;
    indices[at + 2] := topRight;
    indices[at + 3] := topRight;
    indices[at + 4] := bottomLeft;
    indices[at + 5] := bottomRight;
    forall j | at <= j < at + 6
      ensures indices[j] == IndexAt(j)
    {
      var c := j - at;
      assert indices[at + c] == QuadCorner(ix, iy, c);
      QuadEntries(ix, iy, c);
    }
  }

  /** The first `n` vertices carry their normals, the rest are as the vertex pass left them. */
  ghost predicate ShadedUpTo(vertices: seq<TerrainVertex>, grid: seq<TerrainVertex>, n: nat, normalOf: (Vec3, Vec3) -> Vec3)
    requires |vertices| == VertexCount && |grid| == VertexCount
  {
    (forall k :: 0 <= k < n && k < VertexCount ==> vertices[k] == ShadedAt(grid, k, normalOf)) &&
    (forall k :: n <= k < VertexCount ==> vertices[k] == grid[k])
  }

  /** The normal pass: positions stay, each vertex gets the normal from its neighbours. */
  method ShadeVertices(vertices: array<TerrainVertex>, normalOf: (Vec3, Vec3) -> Vec3)
    requires vertices.Length == VertexCount
    modifies vertices
    ensures vertices[..] == seq(VertexCount, k requires 0 <= k < VertexCount => ShadedAt(old(vertices[..]), k, normalOf))
  {
    ghost var grid := vertices[..];
    for iy := 0 to VertsPerSide
      invariant ShadedUpTo(vertices[..], grid, iy * VertsPerSide, normalOf)
    {
      for ix := 0 to VertsPerSide
        invariant ShadedUpTo(vertices[..], grid, iy * VertsPerSide + ix, normalOf)
      {
        ShadeOne(vertices, grid, ix, iy, normalOf);
      }
    }
    assert ShadedUpTo(vertices[..], grid, VertexCount, normalOf);
    assert forall k :: 0 <= k < VertexCount ==> vertices[..][k] == ShadedAt(grid, k, normalOf);
  }

  /** One step of the normal pass: the neighbours' positions are still those of the grid. */
  method ShadeOne(vertices: array<TerrainVertex>, ghost grid: seq<TerrainVertex>, ix: nat, iy: nat, normalOf: (Vec3, Vec3) -> Vec3)
    requires vertices.Length == VertexCount && |grid| == VertexCount && ix <= Subdivisions && iy <= Subdivisions
    requires ShadedUpTo(vertices[..], grid, iy * VertsPerSide + ix, normalOf)
    modifies vertices
    ensures ShadedUpTo(vertices[..], grid, iy * VertsPerSide + ix + 1, normalOf)
  {
    var idx := iy * VertsPerSide + ix;
    ghost var before := vertices[..];
    var n := Neighbours(ix, iy);
    var left := vertices[n.0].position;
    var right := vertices[n.1].position;
    var up := vertices[n.2].position;
    var down := vertices[n.3].position;
    var shaded := vertices[idx].(normal := normalOf(Sub(down, up), Sub(right, left)));
    assert shaded == ShadedAt(grid, idx, normalOf) by {
      DivModUnique(idx, VertsPerSide, iy, ix);
      SamePositions(before, grid, iy * VertsPerSide + ix, normalOf);
      assert before[n.0] == vertices[n.0] && before[n.1] == vertices[n.1];
      assert before[n.2] == vertices[n.2] && before[n.3] == vertices[n.3];
      assert before[idx] == vertices[idx];
    }
    vertices[idx] := shaded;
    assert vertices[..] == before[idx := shaded];
  }

  /** Shading so far has moved no vertex. */
  lemma SamePositions(vertices: seq<TerrainVertex>, grid: seq<TerrainVertex>, n: nat, normalOf: (Vec3, Vec3) -> Vec3)
    requires |vertices| == VertexCount && |grid| == VertexCount
    requires ShadedUpTo(vertices, grid, n, normalOf)
    ensures forall k :: 0 <= k < VertexCount ==> vertices[k].position == grid[k].position
    ensures n < VertexCount ==> vertices[n] == grid[n]
  {
    forall k | 0 <= k < VertexCount
      ensures vertices[k].position == grid[k].position
    {
      if k < n { assert vertices[k] == ShadedAt(grid, k, normalOf); }
    }
  }

  /**
   * How a terrain download ended: the request threw, or a response arrived
   * with an HTTP status (absent when not HTTP), the image the bytes decode to
   * (None when they are not an image or no drawing context can be made), and
   * whether the GPU buffers can be made.
   */
  datatype Download = Thrown | Received(status: Option<int>, image: Option<Image>, buffersMade: bool)

  function TerrainURL(tile: TileCoordinate): string
  {
    "https://s3.amazonaws.com/elevation-tiles-prod/terrarium/"
      + IntToString(tile.zoom) + "/" + IntToString(tile.x) + "/" + IntToString(tile.y) + ".png"
  }

  /** The mesh a download produces, if any; `rect` is the tile's world rectangle. */
  function Fetched(outcome: Download, rect: WorldRect, normalOf: (Vec3, Vec3) -> Vec3): (m: Option<TerrainMesh>)
    ensures m.Some? <==>
      (outcome.Received? && (outcome.status.None? || outcome.status.value == 200)
       && Decode(outcome.image).Some? && outcome.buffersMade)
    ensures m.Some? ==> |m.value.vertices| == VertexCount && |m.value.indices| == m.value.indexCount == IndexCount
  {
    if outcome.Thrown? || (outcome.status.Some? && outcome.status.value != 200) then None
    else match Decode(outcome.image)
      case None => None
      case Some(elevations) =>
        if outcome.buffersMade then Some(MeshFor(rect, elevations, normalOf)) else None
  }

  class TerrainTileManager {
    var cache: map<TileCoordinate, TerrainMesh>
    /** Oldest first; the most recently used tile is last. */
    var cacheOrder: seq<TileCoordinate>
    var pendingRequests: set<TileCoordinate>
    /** The URLs downloads were started for, in order. */
    var requested: seq<string>

    /** The cache invariant: order and cache agree, at most 250 meshes, and no cached tile is pending. */
    ghost predicate Valid()
      reads this
    {
      Lru(cache, cacheOrder) && |cacheOrder| <= MaxCacheSize && pendingRequests !! cache.Keys
    }

    constructor ()
      ensures Valid()
      ensures cache == map[] && cacheOrder == [] && pendingRequests == {} && requested == []
    {
      cache := map[];
      cacheOrder := [];
      pendingRequests := {};
      requested := [];
    }

    /** `terrainMesh(for:)`: the cached mesh, or None while it loads. */
    method TerrainMeshFor(tile: TileCoordinate) returns (mesh: Option<TerrainMesh>)
      modifies this
      ensures cache == old(cache)
      ensures tile in cache ==>
        (mesh == Some(cache[tile]) && cacheOrder == Touch(old(cacheOrder), tile)
         && pendingRequests == old(pendingRequests) && requested == old(requested))
      ensures tile !in cache && tile !in old(pendingRequests) ==>
        (mesh.None? && cacheOrder == old(cacheOrder)
         && pendingRequests == old(pendingRequests) + {tile} && requested == old(requested) + [TerrainURL(tile)])
      ensures tile !in cache && tile in old(pendingRequests) ==>
        (mesh.None? && cacheOrder == old(cacheOrder)
         && pendingRequests == old(pendingRequests) && requested == old(requested))
      ensures old(Valid()) ==> Valid()
    {
      mesh := None;
      var shouldFetch := false;
      if tile in cache {
        TouchTile(tile);
        mesh := Some(cache[tile]);
      } else if tile !in pendingRequests {
        pendingRequests := pendingRequests + {tile};
        shouldFetch := true;
      }
      if shouldFetch {
        requested := requested + [TerrainURL(tile)];
      }
    }

    /** A cache hit moves the tile to the most recently used end of the order. */
    method TouchTile(tile: TileCoordinate)
      requires tile in cache
      modifies this`cacheOrder
      ensures cacheOrder == Touch(old(cacheOrder), tile)
      ensures old(Valid()) ==> Valid()
    {
      if tile in cacheOrder {
        var idx := FirstIndex(cacheOrder, tile);
        TouchMovesToBack(cacheOrder, tile);
        cacheOrder := cacheOrder[..idx] + cacheOrder[idx + 1..] + [tile];
      }
      if old(Valid()) {
        TouchKeepsLru(cache, old(cacheOrder), tile);
      }
    }

    /** A download for `tile` finished with `outcome`; `rect` is the tile's world rectangle. */
    method CompleteFetch(tile: TileCoordinate, outcome: Download, rect: WorldRect, normalOf: (Vec3, Vec3) -> Vec3)
      modifies this`cache, this`cacheOrder, this`pendingRequests
      ensures pendingRequests == old(pendingRequests) - {tile}
      ensures Fetched(outcome, rect, normalOf).None? ==> cache == old(cache) && cacheOrder == old(cacheOrder)
      ensures Fetched(outcome, rect, normalOf).Some? ==>
        (cache, cacheOrder) == Store(old(cache), old(cacheOrder), tile, Fetched(outcome, rect, normalOf).value, MaxCacheSize)
      ensures old(Valid()) && tile !in old(cache) ==> Valid()
    {
      if outcome.Thrown? {
        pendingRequests := pendingRequests - {tile};
        return;
      }
      if outcome.status.Some? && outcome.status.value != 200 {
        pendingRequests := pendingRequests - {tile};
        return;
      }
      var elevations := DecodeTerrainPNG(outcome.image);
      if elevations.None? {
        pendingRequests := pendingRequests - {tile};
        return;
      }
      var mesh := BuildTerrainMesh(rect, elevations.value, normalOf, outcome.buffersMade);
      pendingRequests := pendingRequests - {tile};
      if mesh.Some? {
        cache := cache[tile := mesh.value];
        cacheOrder := cacheOrder + [tile];
        cache, cacheOrder := EvictOldest(cache, cacheOrder, MaxCacheSize);
        if old(Valid()) && tile !in old(cache) {
          StoreKeepsLru(old(cache), old(cacheOrder), tile, mesh.value, MaxCacheSize);
        }
      }
    }

    /** `clearCache`: drops every mesh, the order and the pending set. */
    method ClearCache()
      modifies this`cache, this`cacheOrder, this`pendingRequests
      ensures cache == map[] && cacheOrder == [] && pendingRequests == {}
      ensures Valid()
    {
      cache := map[];
      cacheOrder := [];
      pendingRequests := {};
    }
  }
}
