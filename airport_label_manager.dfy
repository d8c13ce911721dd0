/**
 * Airport code labels: every airport (up to 512) gets a fixed atlas slot
 * when the atlas is drawn, and each frame shows the nearest 40 within range.
 */
module AirportLabels {
  import opened Wrappers
  import opened Geometry
  import opened Sorting

  datatype Airport = Airport(icao: string, iata: Option<string>, name: string, lat: real, lon: real, kind: string)

  /** Where an airport's label sits in the atlas. */
  datatype Slot = Slot(atlasUV: Vec2, atlasSize: Vec2)

  datatype LabelInstance = LabelInstance(position: Vec3, size: real, atlasUV: Vec2, atlasSize: Vec2, opacity: real)

  /** An airport within range: its index in the airport list and its distance. */
  datatype Visible = Visible(index: nat, distance: real)

  const AtlasWidth: nat := 2048
  const AtlasHeight: nat := 1024
  const SlotWidth: nat := 128
  const SlotHeight: nat := 32
  const ColumnsPerRow: nat := 16
  const RowCount: nat := 32
  const MaxSlots: nat := 512
  const MaxVisibleLabels: nat := 40
  const MaxDistance: real := 400.0
  const FadeDistance: real := 200.0
  const LabelSize: real := 6.0
  /** Labels float slightly above the ground plane. */
  const LabelHeight: real := 0.5

  function Min(a: nat, b: nat): nat { if a < b then a else b }

  /** The code drawn for an airport: IATA when it has one, else ICAO. */
  function LabelText(a: Airport): (t: string)
    ensures a.iata.Some? ==> t == a.iata.value
    ensures a.iata.None? ==> t == a.icao
  {
    a.iata.GetOr(a.icao)
  }

  /** Slot i sits at column i mod 16, row i div 16. */
  function SlotAt(i: nat): (s: Slot)
    requires i < MaxSlots
    ensures 0.0 <= s.atlasUV.x < 1.0 && 0.0 <= s.atlasUV.y < 1.0
  {
    Slot(Vec2((i % ColumnsPerRow) as real * (SlotWidth as real / AtlasWidth as real),
              (i / ColumnsPerRow) as real * (SlotHeight as real / AtlasHeight as real)),
         Vec2(SlotWidth as real / AtlasWidth as real, SlotHeight as real / AtlasHeight as real))
  }

  /** No two airports share a place in the atlas. */
  lemma SlotsApart(i: nat, j: nat)
    requires i < MaxSlots && j < MaxSlots && i != j
    ensures SlotAt(i).atlasUV != SlotAt(j).atlasUV
  {
    assert i == ColumnsPerRow * (i / ColumnsPerRow) + i % ColumnsPerRow;
    assert j == ColumnsPerRow * (j / ColumnsPerRow) + j % ColumnsPerRow;
  }

  /** The slot table `rasterizeAllLabels` builds: one slot per airport, for the first 512. */
  function SlotTable(airports: seq<Airport>): (r: seq<Slot>)
    ensures |r| == Min(|airports|, MaxSlots)
    ensures forall i :: 0 <= i < |r| ==> r[i] == SlotAt(i)
  {
    seq(Min(|airports|, MaxSlots), i requires 0 <= i < Min(|airports|, MaxSlots) => SlotAt(i))
  }

  /** The texts drawn into the slots, slot by slot. */
  function SlotTexts(airports: seq<Airport>): (r: seq<string>)
    ensures |r| == Min(|airports|, MaxSlots)
    ensures forall i :: 0 <= i < |r| ==> r[i] == LabelText(airports[i])
  {
    seq(Min(|airports|, MaxSlots), i requires 0 <= i < Min(|airports|, MaxSlots) => LabelText(airports[i]))
  }

  /** Full opacity closer than 200, fading linearly to zero at 400. */
  function Opacity(distance: real): (o: real)
    ensures distance <= FadeDistance ==> o == 1.0
    ensures FadeDistance <= distance ==> o == 1.0 - (distance - FadeDistance) / 200.0
    ensures FadeDistance <= distance <= MaxDistance ==> 0.0 <= o <= 1.0
    ensures distance == MaxDistance ==> o == 0.0
  {
    Fade(distance, FadeDistance, MaxDistance)
  }

  /** Between 200 and 400 the opacity falls by 1/200 for every unit of distance. */
  lemma OpacityLinear(d1: real, d2: real)
    requires FadeDistance <= d1 <= d2
    ensures Opacity(d1) - Opacity(d2) == (d2 - d1) / 200.0
  {
    FadeLinear(d1, d2, FadeDistance, MaxDistance);
  }

  /** Among the first `n` positions, those within 400 of the camera, in index order. */
  function InRange(positions: seq<Vec3>, n: nat, distance: Vec3 -> real): (r: seq<Visible>)
    requires n <= |positions|
    ensures |r| <= n
    ensures forall k :: 0 <= k < |r| ==>
      r[k].index < n && r[k].distance == distance(positions[r[k].index]) && r[k].distance <= MaxDistance
    ensures forall k, l :: 0 <= k < l < |r| ==> r[k].index < r[l].index
  {
    if n == 0 then []
    else
      var init := InRange(positions, n - 1, distance);
      var d := distance(positions[n - 1]);
      if d <= MaxDistance then init + [Visible(n - 1, d)] else init
  }

  predicate Lists(vs: seq<Visible>, i: nat)
  {
    exists k :: 0 <= k < |vs| && vs[k].index == i
  }

  /** An airport among the first `n` is listed exactly when it is within range. */
  lemma {:induction false} InRangeComplete(positions: seq<Vec3>, n: nat, distance: Vec3 -> real, i: nat)
    requires n <= |positions| && i < n
    ensures Lists(InRange(positions, n, distance), i) <==> distance(positions[i]) <= MaxDistance
  {
    var r := InRange(positions, n, distance);
    var init := InRange(positions, n - 1, distance);
    var d := distance(positions[n - 1]);
    if d <= MaxDistance {
      assert r == init + [Visible(n - 1, d)];
    } else {
      assert r == init;
    }
    if i < n - 1 {
      InRangeComplete(positions, n - 1, distance, i);
      if Lists(init, i) {
        var k :| 0 <= k < |init| && init[k].index == i;
        assert r[k] == init[k];
      }
      if Lists(r, i) {
        var k :| 0 <= k < |r| && r[k].index == i;
        assert k < |init|;
        assert init[k] == r[k];
      }
    } else if d <= MaxDistance {
      assert r[|init|].index == i;
    }
  }

  function DistanceOf(v: Visible): real { v.distance }

  function Nearest(vs: seq<Visible>): seq<Visible>
  {
    var sorted := SortBy(vs, DistanceOf);
    sorted[..Min(|sorted|, MaxVisibleLabels)]
  }

  /** The labels shown are the nearest ones, nearest first, at most 40. */
  lemma NearestFirst(vs: seq<Visible>)
    ensures var n := Nearest(vs);
      |n| == Min(|vs|, MaxVisibleLabels) && multiset(n) <= multiset(vs) &&
      (forall i, j :: 0 <= i < j < |n| ==> n[i].distance <= n[j].distance) &&
      (forall i, v :: 0 <= i < |n| && v in multiset(vs) - multiset(n) ==> n[i].distance <= v.distance)
  {
    var m := Min(|vs|, MaxVisibleLabels);
    SortedPrefix(vs, DistanceOf, m);
    SmallestFirst(vs, DistanceOf, m);
    var n := Nearest(vs);
    var sorted := SortBy(vs, DistanceOf);
    assert n == sorted[..m];
    forall i, j | 0 <= i < j < |n|
      ensures n[i].distance <= n[j].distance
    {
      assert DistanceOf(n[i]) <= DistanceOf(n[j]);
    }
    forall i, v | 0 <= i < |n| && v in multiset(vs) - multiset(n)
      ensures n[i].distance <= v.distance
    {
      assert n[i] == sorted[i];
      assert DistanceOf(sorted[i]) <= DistanceOf(v);
    }
  }

  /** The labels written for the chosen airports; an airport without a slot is skipped. */
  function Emit(vs: seq<Visible>, positions: seq<Vec3>, slots: seq<Slot>): (r: seq<LabelInstance>)
    requires forall k :: 0 <= k < |vs| ==> vs[k].index < |positions|
    ensures |r| <= |vs|
  {
    if vs == [] then []
    else
      var init := Emit(vs[..|vs| - 1], positions, slots);
      var v := vs[|vs| - 1];
      if v.index < |slots| then
        init + [LabelInstance(positions[v.index], LabelSize, slots[v.index].atlasUV, slots[v.index].atlasSize,
                              Opacity(v.distance))]
      else init
  }

  /** When every chosen airport has a slot, every one of them is written. */
  lemma {:induction false} EmitAll(vs: seq<Visible>, positions: seq<Vec3>, slots: seq<Slot>)
    requires forall k :: 0 <= k < |vs| ==> vs[k].index < |positions| && vs[k].index < |slots|
    ensures |Emit(vs, positions, slots)| == |vs|
  {
    if vs != [] {
      EmitAll(vs[..|vs| - 1], positions, slots);
    }
  }

  /** What one update writes. */
  function Frame(positions: seq<Vec3>, airportCount: nat, slots: seq<Slot>, distance: Vec3 -> real): seq<LabelInstance>
    requires airportCount <= |positions|
  {
    var n := Min(airportCount, MaxSlots);
    var chosen := Nearest(InRange(positions, n, distance));
    ChosenIndices(positions, n, distance, chosen);
    Emit(chosen, positions, slots)
  }

  lemma ChosenIndices(positions: seq<Vec3>, n: nat, distance: Vec3 -> real, c: seq<Visible>)
    requires n <= |positions| && c == Nearest(InRange(positions, n, distance))
    ensures forall k :: 0 <= k < |c| ==> c[k].index < n && c[k].index < |positions|
  {
    var vs := InRange(positions, n, distance);
    NearestFirst(vs);
    forall k | 0 <= k < |c| ensures c[k].index < n {
      assert c[k] in multiset(vs);
    }
  }

  /**
   * With the slot table `rasterizeAllLabels` builds, an update writes one
   * label for each of the nearest min(in range, 40) airports.
   */
  lemma FrameCount(airports: seq<Airport>, positions: seq<Vec3>, distance: Vec3 -> real)
    requires |positions| == |airports|
    ensures |Frame(positions, |airports|, SlotTable(airports), distance)| ==
      Min(|InRange(positions, Min(|airports|, MaxSlots), distance)|, MaxVisibleLabels)
  {
    var n := Min(|airports|, MaxSlots);
    var vs := InRange(positions, n, distance);
    ChosenIndices(positions, n, distance, Nearest(vs));
    NearestFirst(vs);
    EmitAll(Nearest(vs), positions, SlotTable(airports));
  }

  class AirportLabelManager {
    var airports: seq<Airport>
    var airportPositions: seq<Vec3>
    var slotUVs: seq<Slot>
    /** The texts drawn into the atlas slots. */
    var slotTexts: seq<string>
    /** The labels of the frame last written. */
    var labels: seq<LabelInstance>

    ghost predicate Valid()
      reads this
    {
      |airportPositions| == |airports| && slotUVs == SlotTable(airports) && slotTexts == SlotTexts(airports) &&
      |labels| <= MaxVisibleLabels
    }

    /**
     * Loads the bundled list (`None` when it is missing or does not decode),
     * places each airport with `project(lon, lat)` and draws the atlas.
     */
    constructor (loaded: Option<seq<Airport>>, project: (real, real) -> Vec2)
      ensures Valid() && labels == []
      ensures airports == (if loaded.Some? then loaded.value else [])
      ensures forall i :: 0 <= i < |airports| ==>
        airportPositions[i] == Vec3(project(airports[i].lon, airports[i].lat).x, LabelHeight,
                                    project(airports[i].lon, airports[i].lat).y)
    {
      airports := if loaded.Some? then loaded.value else [];
      var list := if loaded.Some? then loaded.value else [];
      airportPositions := seq(|list|, i requires 0 <= i < |list| =>
        Vec3(project(list[i].lon, list[i].lat).x, LabelHeight, project(list[i].lon, list[i].lat).y));
      labels := [];
      new;
      RasterizeAllLabels();
    }

    /** `rasterizeAllLabels` (also `updateTheme`): redraw every slot, one per airport up to 512. */
    method RasterizeAllLabels()
      modifies this`slotUVs, this`slotTexts
      ensures slotUVs == SlotTable(airports) && slotTexts == SlotTexts(airports)
    {
      var uvs: seq<Slot> := [];
      var texts: seq<string> := [];
      var i := 0;
      while i < |airports|
        invariant 0 <= i <= Min(|airports|, MaxSlots)
        invariant uvs == SlotTable(airports[..i]) && texts == SlotTexts(airports[..i])
      {
        if i >= MaxSlots {
          break;
        }
        texts := texts + [LabelText(airports[i])];
        uvs := uvs + [SlotAt(i)];
        i := i + 1;
      }
      slotUVs, slotTexts := uvs, texts;
    }

    /** `update(bufferIndex:cameraPosition:themeConfig:)`; `distance` gives the distance from the camera. */
    method Update(distance: Vec3 -> real)
      requires Valid()
      modifies this`labels
      ensures Valid()
      ensures labels == Frame(airportPositions, |airports|, slotUVs, distance)
    {
      var visible := CollectVisible(airportPositions, Min(|airports|, MaxSlots), distance);
      var sorted := SortBy(visible, DistanceOf);
      var chosen := sorted[..Min(|sorted|, MaxVisibleLabels)];
      ChosenIndices(airportPositions, Min(|airports|, MaxSlots), distance, chosen);
      FrameCount(airports, airportPositions, distance);
      labels := WriteLabels(chosen, airportPositions, slotUVs);
    }
  }

  /** The distance-cull loop over the first `n` airports. */
  method CollectVisible(positions: seq<Vec3>, n: nat, distance: Vec3 -> real) returns (visible: seq<Visible>)
    requires n <= |positions|
    ensures visible == InRange(positions, n, distance)
  {
    visible := [];
    var i: nat := 0;
    while i < n
      invariant i <= n && visible == InRange(positions, i, distance)
    {
      var d := distance(positions[i]);
      if d <= MaxDistance {
        visible := visible + [Visible(i, d)];
      }
      i := i + 1;
    }
  }

  /** The label-writing loop. */
  method WriteLabels(vs: seq<Visible>, positions: seq<Vec3>, slots: seq<Slot>) returns (labels: seq<LabelInstance>)
    requires forall k :: 0 <= k < |vs| ==> vs[k].index < |positions|
    ensures labels == Emit(vs, positions, slots)
  {
    labels := [];
    var i := 0;
    while i < |vs|
      invariant 0 <= i <= |vs| && labels == Emit(vs[..i], positions, slots)
    {
      assert vs[..i + 1][..i] == vs[..i];
      var v := vs[i];
      if v.index < |slots| {
        var slot := slots[v.index];
        labels := labels + [LabelInstance(positions[v.index], LabelSize, slot.atlasUV, slot.atlasSize, Opacity(v.distance))];
      }
      i := i + 1;
    }
    assert vs[..i] == vs;
  }
}
