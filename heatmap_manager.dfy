/**
 * The traffic-density heat map: a 32 x 32 grid of detection counts over the
 * visible area, the colour-ramped RGBA texture made from it and the ground
 * quad it is drawn on.
 */
module Heatmap {
  import opened Wrappers
  import opened Geometry
  import opened RenderState
  import Themes
  import Tiles

  const GridSize: nat := 32
  const CellCount: nat := 1024
  const ByteCount: nat := 4096
  const GroundY: real := 0.01

  /** Geographic bounds in degrees: longitude west..east, latitude south..north. */
  datatype GeoBounds = GeoBounds(west: real, south: real, east: real, north: real)

  function AbsReal(x: real): real { if x < 0.0 then -x else x }

  function Min(a: int, b: int): int { if a < b then a else b }

  /** Both spans are positive; otherwise `accumulate` counts nothing. */
  predicate HasArea(b: GeoBounds) {
    b.east - b.west > 0.0 && b.north - b.south > 0.0
  }

  /** The view centre moved by more than half the span of `last` in either direction. */
  predicate Shifted(last: GeoBounds, b: GeoBounds) {
    AbsReal((b.north + b.south) / 2.0 - (last.north + last.south) / 2.0) > (last.north - last.south) * 0.5 ||
    AbsReal((b.east + b.west) / 2.0 - (last.east + last.west) / 2.0) > (last.east - last.west) * 0.5
  }

  /** The same view never counts as shifted, unless its bounds are inverted. */
  lemma SameViewKeepsGrid(b: GeoBounds)
    requires b.east >= b.west && b.north >= b.south
    ensures !Shifted(b, b)
  {
  }

  /** A view whose centre moved more than a whole span is always shifted. */
  lemma FarPanResets(last: GeoBounds, b: GeoBounds)
    requires last.east >= last.west && last.north >= last.south
    requires b.east - b.west == last.east - last.west
    requires b.north == last.north && b.south == last.south
    requires b.west > last.east
    ensures Shifted(last, b)
  {
  }

  /** The bounds kept after the reset check at the top of `accumulate`. */
  function NextBounds(last: Option<GeoBounds>, b: GeoBounds): (r: Option<GeoBounds>)
  {
    match last
    case None => Some(b)
    case Some(l) => if Shifted(l, b) then Some(b) else last
  }

  /** The first accumulation records its bounds; later ones replace them only when the view shifted. */
  lemma BoundsRule(last: Option<GeoBounds>, b: GeoBounds)
    ensures NextBounds(last, b).Some?
    ensures last.None? ==> NextBounds(last, b) == Some(b)
    ensures last.Some? && !Shifted(last.value, b) ==> NextBounds(last, b) == last
    ensures last.Some? && Shifted(last.value, b) ==> NextBounds(last, b) == Some(b)
  {
  }

  /** A coordinate divided by a positive span lands in [0, 1) exactly when it lies in [lo, lo + span). */
  lemma Normalised(x: real, lo: real, span: real)
    requires span > 0.0
    ensures (x - lo) / span >= 0.0 <==> x >= lo
    ensures (x - lo) / span < 1.0 <==> x < lo + span
  {
    var q := (x - lo) / span;
    assert q * span == x - lo;
    if q >= 0.0 {
      assert q * span >= 0.0;
    } else {
      assert q * span < 0.0;
    }
    if q < 1.0 {
      assert q * span < span;
    } else {
      assert q * span >= span;
    }
  }

  /** The cell `(gx, gy)` of a normalised coordinate, clamped to the last column or row. */
  function Bucket(norm: real): (g: nat)
    requires 0.0 <= norm < 1.0
    ensures g < GridSize
    ensures g as real <= norm * 32.0
  {
    var t := Trunc(norm * 32.0);
    Min(t, 31)
  }

  /**
   * The grid index a position is counted in, or None for a position outside
   * `[west, east) x [south, north)`.
   */
  function CellOf(b: GeoBounds, lon: real, lat: real): (r: Option<nat>)
    requires HasArea(b)
    ensures r.Some? <==> b.west <= lon < b.east && b.south <= lat < b.north
    ensures r.Some? ==> r.value < CellCount
  {
    Normalised(lon, b.west, b.east - b.west);
    Normalised(lat, b.south, b.north - b.south);
    var normX := (lon - b.west) / (b.east - b.west);
    var normY := (lat - b.south) / (b.north - b.south);
    if normX >= 0.0 && normX < 1.0 && normY >= 0.0 && normY < 1.0 then
      Some(Bucket(normY) * GridSize + Bucket(normX))
    else
      None
  }

  /** The column of a cell is its `x` bucket and the row its `y` bucket. */
  lemma CellColumnRow(b: GeoBounds, lon: real, lat: real)
    requires HasArea(b) && CellOf(b, lon, lat).Some?
    ensures CellOf(b, lon, lat).value % GridSize == Bucket((lon - b.west) / (b.east - b.west))
    ensures CellOf(b, lon, lat).value / GridSize == Bucket((lat - b.south) / (b.north - b.south))
  {
    var gx := Bucket((lon - b.west) / (b.east - b.west));
    var gy := Bucket((lat - b.south) / (b.north - b.south));
    Tiles.DivModUnique(gy * 32 + gx, 32, gy, gx);
  }

  /** The counts after the loop over `states` has run, starting from `grid`. */
  function Counted(grid: seq<nat>, b: GeoBounds, states: seq<InterpolatedAircraftState>): (r: seq<nat>)
    requires |grid| == CellCount && HasArea(b)
    ensures |r| == CellCount
    decreases |states|
  {
    if states == [] then grid
    else
      var prev := Counted(grid, b, states[..|states| - 1]);
      var s := states[|states| - 1];
      match CellOf(b, s.lon, s.lat)
      case None => prev
      case Some(i) => prev[i := prev[i] + 1]
  }

  /** How many of `states` land in cell `i`. */
  function Hits(b: GeoBounds, states: seq<InterpolatedAircraftState>, i: nat): nat
    requires HasArea(b)
    decreases |states|
  {
    if states == [] then 0
    else
      var s := states[|states| - 1];
      Hits(b, states[..|states| - 1], i) + (if CellOf(b, s.lon, s.lat) == Some(i) then 1 else 0)
  }

  /** How many of `states` lie inside the bounds. */
  function Inside(b: GeoBounds, states: seq<InterpolatedAircraftState>): nat
    requires HasArea(b)
    decreases |states|
  {
    if states == [] then 0
    else
      var s := states[|states| - 1];
      Inside(b, states[..|states| - 1]) + (if b.west <= s.lon < b.east && b.south <= s.lat < b.north then 1 else 0)
  }

  /** Every cell grows by exactly the number of states that land in it. */
  lemma {:induction false} CountedCell(grid: seq<nat>, b: GeoBounds, states: seq<InterpolatedAircraftState>, i: nat)
    requires |grid| == CellCount && HasArea(b) && i < CellCount
    ensures Counted(grid, b, states)[i] == grid[i] + Hits(b, states, i)
    decreases |states|
  {
    if states != [] {
      CountedCell(grid, b, states[..|states| - 1], i);
    }
  }

  function Sum(s: seq<nat>): nat
    decreases |s|
  {
    if s == [] then 0 else Sum(s[..|s| - 1]) + s[|s| - 1]
  }

  lemma {:induction false} SumBump(s: seq<nat>, i: nat)
    requires i < |s|
    ensures Sum(s[i := s[i] + 1]) == Sum(s) + 1
    decreases |s|
  {
    var t := s[i := s[i] + 1];
    assert t[..|t| - 1] == if i == |s| - 1 then s[..|s| - 1] else s[..|s| - 1][i := s[i] + 1];
    if i < |s| - 1 {
      SumBump(s[..|s| - 1], i);
    }
  }

  /** The total count grows by the number of states inside the bounds; states outside are ignored. */
  lemma {:induction false} CountedSum(grid: seq<nat>, b: GeoBounds, states: seq<InterpolatedAircraftState>)
    requires |grid| == CellCount && HasArea(b)
    ensures Sum(Counted(grid, b, states)) == Sum(grid) + Inside(b, states)
    decreases |states|
  {
    if states != [] {
      CountedSum(grid, b, states[..|states| - 1]);
      var s := states[|states| - 1];
      var prev := Counted(grid, b, states[..|states| - 1]);
      match CellOf(b, s.lon, s.lat)
      case None =>
      case Some(i) => SumBump(prev, i);
    }
  }

  /** `grid.contains(where: { $0 > 0 })`. */
  function AnyPositive(s: seq<nat>): (r: bool)
    ensures r <==> exists i :: 0 <= i < |s| && s[i] > 0
    decreases |s|
  {
    if s == [] then false
    else if s[|s| - 1] > 0 then true
    else
      assert forall i :: 0 <= i < |s| - 1 ==> s[..|s| - 1][i] == s[i];
      AnyPositive(s[..|s| - 1])
  }

  /** `grid.max() ?? 0`. */
  function MaxCell(s: seq<nat>): (m: nat)
    ensures forall i :: 0 <= i < |s| ==> s[i] <= m
    ensures s == [] ==> m == 0
    ensures s != [] ==> exists i :: 0 <= i < |s| && s[i] == m
    decreases |s|
  {
    if s == [] then 0
    else
      var m := MaxCell(s[..|s| - 1]);
      assert forall i :: 0 <= i < |s| - 1 ==> s[..|s| - 1][i] == s[i];
      if s[|s| - 1] > m then s[|s| - 1] else m
  }

  /** The divisor of the colour ramp, at least one so an empty grid does not divide by zero. */
  function MaxVal(grid: seq<nat>): (m: nat)
    ensures m >= 1
    ensures forall i :: 0 <= i < |grid| ==> grid[i] <= m
  {
    var top := MaxCell(grid);
    if top > 1 then top else 1
  }

  /** The three colour ramps of the heat map. */
  datatype Ramp = RetroRamp | NightRamp | DayRamp

  /** Retro is recognised by wireframe; night by a dark-blue clear colour. */
  function RampFor(c: Themes.ThemeConfig): Ramp
  {
    if c.isWireframe then RetroRamp
    else if c.clearColor.r < 0.1 && c.clearColor.g < 0.1 && c.clearColor.b < 0.2 then NightRamp
    else DayRamp
  }

  /** Each theme's own configuration selects that theme's ramp. */
  lemma RampPerTheme(t: Themes.Theme)
    ensures RampFor(Themes.Config(t)) == match t
      case Day => DayRamp
      case Night => NightRamp
      case Retro => RetroRamp
  {
  }

  /** `UInt8(min(max(x * 255, 0), 255))`. */
  function ToByte(x: real): (v: int)
    ensures 0 <= v <= 255
  {
    var y := x * 255.0;
    var c := if y < 0.0 then 0.0 else if y > 255.0 then 255.0 else y;
    Trunc(c)
  }

  lemma ToByteMonotonic(x: real, y: real)
    requires x <= y
    ensures ToByte(x) <= ToByte(y)
  {
    var cx := if x * 255.0 < 0.0 then 0.0 else if x * 255.0 > 255.0 then 255.0 else x * 255.0;
    var cy := if y * 255.0 < 0.0 then 0.0 else if y * 255.0 > 255.0 then 255.0 else y * 255.0;
    assert cx <= cy;
    assert cx.Floor <= cy.Floor;
  }

  /** The straight (not premultiplied) colour of a ramp at an intensity. */
  function RampColor(ramp: Ramp, intensity: real): Color
  {
    match ramp
    case RetroRamp => Color(0.0, 60.0 / 255.0 + intensity * (255.0 - 60.0) / 255.0, 0.0, 0.15 + intensity * 0.55)
    case NightRamp => Color(0.0, 80.0 / 255.0 + intensity * (255.0 - 80.0) / 255.0,
                            180.0 / 255.0 + intensity * (255.0 - 180.0) / 255.0, 0.15 + intensity * 0.55)
    case DayRamp => Color(0.0, 100.0 / 255.0 + intensity * (255.0 - 100.0) / 255.0, 1.0, 0.15 + intensity * 0.45)
  }

  /** The fraction of the busiest cell's count that `cell` holds. */
  function Intensity(cell: nat, maxVal: nat): (v: real)
    requires 1 <= maxVal && cell <= maxVal
    ensures 0.0 <= v <= 1.0
    ensures cell > 0 ==> v > 0.0
  {
    var q := cell as real / maxVal as real;
    assert q * maxVal as real == cell as real;
    q
  }

  /** The four bytes of one texel: transparent for an empty cell, else the premultiplied ramp colour. */
  function Texel(cell: nat, maxVal: nat, ramp: Ramp): (p: seq<int>)
    requires 1 <= maxVal && cell <= maxVal
    ensures |p| == 4
    ensures forall j :: 0 <= j < 4 ==> 0 <= p[j] <= 255
  {
    if cell == 0 then [0, 0, 0, 0]
    else
      var c := RampColor(ramp, Intensity(cell, maxVal));
      [ToByte(c.r * c.a), ToByte(c.g * c.a), ToByte(c.b * c.a), ToByte(c.a)]
  }

  /** Empty cells are fully transparent and every cell with a detection is visible. */
  lemma TexelVisibility(cell: nat, maxVal: nat, ramp: Ramp)
    requires 1 <= maxVal && cell <= maxVal
    ensures cell == 0 ==> Texel(cell, maxVal, ramp) == [0, 0, 0, 0]
    ensures cell > 0 ==> Texel(cell, maxVal, ramp)[3] >= 38
  {
    if cell > 0 {
      var a := RampColor(ramp, Intensity(cell, maxVal)).a;
      assert a >= 0.15;
      assert (a * 255.0) >= 38.0;
    }
  }

  /** A busier cell is never more transparent than a quieter one. */
  lemma DenserIsOpaquer(c1: nat, c2: nat, maxVal: nat, ramp: Ramp)
    requires 1 <= maxVal && 0 < c1 <= c2 <= maxVal
    ensures Texel(c1, maxVal, ramp)[3] <= Texel(c2, maxVal, ramp)[3]
  {
    var i1 := Intensity(c1, maxVal);
    var i2 := Intensity(c2, maxVal);
    assert i1 <= i2;
    assert i1 * 0.55 <= i2 * 0.55 && i1 * 0.45 <= i2 * 0.45;
    ToByteMonotonic(RampColor(ramp, i1).a, RampColor(ramp, i2).a);
  }

  /** The retro ramp draws only in green. */
  lemma RetroIsGreen(cell: nat, maxVal: nat)
    requires 1 <= maxVal && cell <= maxVal
    ensures Texel(cell, maxVal, RetroRamp)[0] == 0 && Texel(cell, maxVal, RetroRamp)[2] == 0
  {
  }

  /** Byte `k` of the texture made from `grid`: texel `k / 4`, channel `k % 4`. */
  function TextureByte(grid: seq<nat>, ramp: Ramp, k: nat): int
    requires |grid| == CellCount && k < ByteCount
  {
    Texel(grid[k / 4], MaxVal(grid), ramp)[k % 4]
  }

  /** The whole RGBA8 texture, row by row. */
  function Texture(grid: seq<nat>, ramp: Ramp): (t: seq<int>)
    requires |grid| == CellCount
    ensures |t| == ByteCount
  {
    seq(ByteCount, k requires 0 <= k => if k < ByteCount then TextureByte(grid, ramp, k) else 0)
  }

  /** The texel of cell `c` sits at bytes `4c .. 4c + 3`; empty cells are transparent. */
  lemma TexelPlacement(grid: seq<nat>, ramp: Ramp, c: nat, j: nat)
    requires |grid| == CellCount && c < CellCount && j < 4
    ensures TextureByte(grid, ramp, 4 * c + j) == Texel(grid[c], MaxVal(grid), ramp)[j]
    ensures Texture(grid, ramp)[4 * c + j] == Texel(grid[c], MaxVal(grid), ramp)[j]
    ensures grid[c] == 0 ==> Texture(grid, ramp)[4 * c + j] == 0
  {
    Tiles.DivModUnique(4 * c + j, 4, c, j);
  }

  /** The four bytes of texel `c` as one slice of the texture. */
  lemma TexelSlice(grid: seq<nat>, ramp: Ramp, c: nat)
    requires |grid| == CellCount && c < CellCount
    ensures Texture(grid, ramp)[4 * c .. 4 * c + 4] == Texel(grid[c], MaxVal(grid), ramp)
  {
    var t := Texture(grid, ramp);
    var p := Texel(grid[c], MaxVal(grid), ramp);
    forall j | 0 <= j < 4
      ensures t[4 * c .. 4 * c + 4][j] == p[j]
    {
      TexelPlacement(grid, ramp, c, j);
    }
  }

  /** Vertex of the ground quad: a position and its texture coordinate. */
  datatype HeatmapVertex = HeatmapVertex(position: Vec3, texCoord: Vec2)

  /** Two triangles NW-NE-SE and NW-SE-SW over `[minX, maxX] x [minZ, maxZ]`. */
  function Quad(minX: real, maxX: real, minZ: real, maxZ: real): (q: seq<HeatmapVertex>)
    ensures |q| == 6
  {
    [HeatmapVertex(Vec3(minX, GroundY, minZ), Vec2(0.0, 0.0)),
     HeatmapVertex(Vec3(maxX, GroundY, minZ), Vec2(1.0, 0.0)),
     HeatmapVertex(Vec3(maxX, GroundY, maxZ), Vec2(1.0, 1.0)),
     HeatmapVertex(Vec3(minX, GroundY, minZ), Vec2(0.0, 0.0)),
     HeatmapVertex(Vec3(maxX, GroundY, maxZ), Vec2(1.0, 1.0)),
     HeatmapVertex(Vec3(minX, GroundY, maxZ), Vec2(0.0, 1.0))]
  }

  /** The quad for geographic bounds: north is the smaller Z, so texture row 0 is the north edge. */
  function QuadFor(b: GeoBounds, lonToX: real -> real, latToZ: real -> real): (q: seq<HeatmapVertex>)
    ensures |q| == 6
  {
    Quad(lonToX(b.west), lonToX(b.east), latToZ(b.north), latToZ(b.south))
  }

  /**
   * Every vertex lies just above the ground at the point its texture
   * coordinate names, so the texture is stretched over the whole quad.
   */
  lemma QuadTexturesCorners(minX: real, maxX: real, minZ: real, maxZ: real)
    ensures forall v :: v in Quad(minX, maxX, minZ, maxZ) ==>
      v.position.y == GroundY &&
      (v.texCoord.x == 0.0 || v.texCoord.x == 1.0) && (v.texCoord.y == 0.0 || v.texCoord.y == 1.0) &&
      v.position.x == minX + v.texCoord.x * (maxX - minX) &&
      v.position.z == minZ + v.texCoord.y * (maxZ - minZ)
    ensures Quad(minX, maxX, minZ, maxZ)[0] == Quad(minX, maxX, minZ, maxZ)[3]
    ensures Quad(minX, maxX, minZ, maxZ)[2] == Quad(minX, maxX, minZ, maxZ)[4]
  {
  }

  /** The CPU-side grid, the texture bytes last uploaded and the quad last written. */
  class HeatmapManager {
    var grid: seq<nat>
    var lastBounds: Option<GeoBounds>
    var pixels: seq<int>
    var quad: seq<HeatmapVertex>

    ghost predicate Valid()
      reads this
    {
      |grid| == CellCount && |pixels| == ByteCount
    }

    constructor ()
      ensures Valid()
      ensures grid == seq(CellCount, _ => 0) && lastBounds == None
      ensures pixels == seq(ByteCount, _ => 0) && quad == []
    {
      grid := seq(CellCount, _ => 0);
      lastBounds := None;
      pixels := seq(ByteCount, _ => 0);
      quad := [];
    }

    /** `hasData`: some cell holds a detection. */
    function HasData(): (r: bool)
      reads this
      ensures r <==> exists i :: 0 <= i < |grid| && grid[i] > 0
    {
      AnyPositive(grid)
    }

    /** `heatmapTexture()`: the texture only while some cell holds a detection. */
    function HeatmapTexture(): (r: Option<seq<int>>)
      reads this
      ensures r.None? <==> forall i :: 0 <= i < |grid| ==> grid[i] == 0
      ensures r.Some? ==> r.value == pixels
    {
      if HasData() then Some(pixels) else None
    }

    /**
     * `accumulate(states:west:south:east:north:)`: reset on a large pan, then
     * count each state inside the kept bounds in its cell.
     */
    method Accumulate(states: seq<InterpolatedAircraftState>, west: real, south: real, east: real, north: real)
      requires Valid()
      modifies this`grid, this`lastBounds
      ensures Valid()
      ensures lastBounds == NextBounds(old(lastBounds), GeoBounds(west, south, east, north))
      ensures var start := if old(lastBounds).Some? && Shifted(old(lastBounds).value, GeoBounds(west, south, east, north))
                           then seq(CellCount, _ => 0) else old(grid);
              grid == if HasArea(lastBounds.value) then Counted(start, lastBounds.value, states) else start
    {
      var b := GeoBounds(west, south, east, north);
      if lastBounds.Some? {
        if Shifted(lastBounds.value, b) {
          grid := seq(CellCount, _ => 0);
          lastBounds := Some(b);
        }
      } else {
        lastBounds := Some(b);
      }
      var bounds := lastBounds.value;
      if !HasArea(bounds) {
        return;
      }
      ghost var start := grid;
      for k := 0 to |states|
        invariant |grid| == CellCount && lastBounds == Some(bounds)
        invariant grid == Counted(start, bounds, states[..k])
      {
        assert states[..k + 1][..k] == states[..k];
        var cell := CellOf(bounds, states[k].lon, states[k].lat);
        if cell.Some? {
          grid := grid[cell.value := grid[cell.value] + 1];
        }
      }
      assert states[..|states|] == states;
    }

    /** `generateTexture(themeConfig:)`: the texel loop over rows and columns. */
    method GenerateTexture(config: Themes.ThemeConfig)
      requires Valid()
      modifies this`pixels
      ensures Valid()
      ensures pixels == Texture(grid, RampFor(config))
    {
      var ramp := RampFor(config);
      var maxVal := MaxVal(grid);
      ghost var t := Texture(grid, ramp);
      var px := new int[ByteCount](_ => 0);
      for y := 0 to GridSize
        invariant forall k :: 0 <= k < y * 128 ==> px[k] == t[k]
      {
        for x := 0 to GridSize
          invariant forall k :: 0 <= k < y * 128 + x * 4 ==> px[k] == t[k]
        {
          TexelSlice(grid, ramp, y * GridSize + x);
          WriteTexel(px, t, y * GridSize + x, Texel(grid[y * GridSize + x], maxVal, ramp));
        }
      }
      assert px[..] == t;
      pixels := px[..];
    }

    /** `update(bufferIndex:themeConfig:)`: nothing before the first accumulation. */
    method Update(config: Themes.ThemeConfig, lonToX: real -> real, latToZ: real -> real)
      requires Valid()
      modifies this`pixels, this`quad
      ensures Valid()
      ensures old(lastBounds).None? ==> pixels == old(pixels) && quad == old(quad)
      ensures old(lastBounds).Some? ==>
        pixels == Texture(grid, RampFor(config)) && quad == QuadFor(lastBounds.value, lonToX, latToZ)
    {
      if lastBounds.None? {
        return;
      }
      var bounds := lastBounds.value;
      GenerateTexture(config);
      quad := QuadFor(bounds, lonToX, latToZ);
    }
  }

  /** Writes the four bytes `p` of texel `c`, extending the prefix of `t` already written. */
  method WriteTexel(px: array<int>, ghost t: seq<int>, c: nat, p: seq<int>)
    requires px.Length == |t| == ByteCount && c < CellCount
    requires p == t[4 * c .. 4 * c + 4]
    requires forall k :: 0 <= k < 4 * c ==> px[k] == t[k]
    modifies px
    ensures forall k :: 0 <= k < 4 * c + 4 ==> px[k] == t[k]
  {
    px[4 * c] := p[0];
    px[4 * c + 1] := p[1];
    px[4 * c + 2] := p[2];
    px[4 * c + 3] := p[3];
  }
}
