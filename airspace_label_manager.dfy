/**
 * Text labels over the airspace volumes: one label per distinct name, the
 * nearest 60 within range, drawn from a 128-slot atlas filled in order.
 */
module AirspaceLabels {
  import opened Wrappers
  import opened Geometry
  import opened Sorting
  import opened Airspace

  const AtlasWidth: nat := 1024
  const AtlasHeight: nat := 512
  const SlotWidth: nat := 128
  const SlotHeight: nat := 32
  const ColumnsPerRow: nat := 8
  const RowCount: nat := 16
  const MaxSlots: nat := 128
  const MaxVisibleLabels: nat := 60
  const MaxDistance: real := 500.0
  const FadeDistance: real := 300.0
  const MaxTextLength: nat := 12
  const LabelSize: real := 6.0

  /** A label that survived the distance cull. */
  datatype Candidate = Candidate(name: string, position: Vec3, distance: real)

  /** What one label writes into the frame's instance buffer. */
  datatype LabelInstance = LabelInstance(position: Vec3, size: real, atlasUV: Vec2, atlasSize: Vec2, opacity: real)

  /** The top-left corner of a slot in atlas texture coordinates. */
  function SlotUV(slot: nat): (uv: Vec2)
    requires slot < MaxSlots
    ensures 0.0 <= uv.x < 1.0 && 0.0 <= uv.y < 1.0
  {
    Vec2((slot % ColumnsPerRow) as real * (SlotWidth as real / AtlasWidth as real),
         (slot / ColumnsPerRow) as real * (SlotHeight as real / AtlasHeight as real))
  }

  const SlotSize: Vec2 := Vec2(SlotWidth as real / AtlasWidth as real, SlotHeight as real / AtlasHeight as real)

  /** Different slots sit at different places in the atlas. */
  lemma SlotsApart(s: nat, t: nat)
    requires s < MaxSlots && t < MaxSlots && s != t
    ensures SlotUV(s) != SlotUV(t)
  {
    assert s == ColumnsPerRow * (s / ColumnsPerRow) + s % ColumnsPerRow;
    assert t == ColumnsPerRow * (t / ColumnsPerRow) + t % ColumnsPerRow;
  }

  /** The first 12 characters of a name (`prefix(12)`; Swift counts grapheme clusters, the model counts `char`s). */
  function LabelText(name: string): (t: string)
    ensures |t| <= MaxTextLength && |t| <= |name| && t == name[..|t|]
    ensures |name| <= MaxTextLength ==> t == name
    ensures |name| > MaxTextLength ==> |t| == MaxTextLength
  {
    if |name| > MaxTextLength then name[..MaxTextLength] else name
  }

  /** Full opacity closer than 300, fading linearly to zero at 500. */
  function Opacity(distance: real): (o: real)
    ensures distance <= FadeDistance ==> o == 1.0
    ensures FadeDistance <= distance ==> o == 1.0 - (distance - FadeDistance) / 200.0
    ensures FadeDistance <= distance <= MaxDistance ==> 0.0 <= o <= 1.0
    ensures distance == MaxDistance ==> o == 0.0
  {
    Fade(distance, FadeDistance, MaxDistance)
  }

  /** Between 300 and 500 the opacity falls by 1/200 for every unit of distance. */
  lemma OpacityLinear(d1: real, d2: real)
    requires FadeDistance <= d1 <= d2
    ensures Opacity(d1) - Opacity(d2) == (d2 - d1) / 200.0
  {
    FadeLinear(d1, d2, FadeDistance, MaxDistance);
  }

  // ---------------------------------------------------------------------
  // Selection
  // ---------------------------------------------------------------------

  function Names(fs: seq<AirspaceFeature>): set<string>
  {
    set k | 0 <= k < |fs| :: fs[k].name
  }

  lemma NamesSnoc(u: seq<AirspaceFeature>, f: AirspaceFeature)
    ensures Names(u + [f]) == Names(u) + {f.name}
  {
    var v := u + [f];
    forall n | n in Names(v) ensures n in Names(u) + {f.name} {
      var k :| 0 <= k < |v| && v[k].name == n;
      if k < |u| { assert u[k] == v[k]; }
    }
    forall n | n in Names(u) ensures n in Names(v) {
      var k :| 0 <= k < |u| && u[k].name == n;
      assert v[k] == u[k];
    }
    assert v[|u|] == f;
  }

  /** The first feature of each name, in input order. */
  function Unique(fs: seq<AirspaceFeature>): seq<AirspaceFeature>
  {
    if fs == [] then []
    else
      var init := Unique(fs[..|fs| - 1]);
      if fs[|fs| - 1].name in Names(init) then init else init + [fs[|fs| - 1]]
  }

  /** `fs[i]` is the first feature carrying its name. */
  ghost predicate FirstOfName(fs: seq<AirspaceFeature>, i: nat)
    requires i < |fs|
  {
    forall j :: 0 <= j < i ==> fs[j].name != fs[i].name
  }

  /**
   * Deduplication keeps one feature per name, loses no name, and what it
   * keeps is each name's first feature.
   */
  lemma {:induction false} UniqueFirstByName(fs: seq<AirspaceFeature>)
    ensures var u := Unique(fs);
      (forall a, b :: 0 <= a < b < |u| ==> u[a].name != u[b].name) &&
      Names(u) == Names(fs) &&
      (forall k :: 0 <= k < |u| ==> exists i :: 0 <= i < |fs| && fs[i] == u[k] && FirstOfName(fs, i))
  {
    if fs != [] {
      var init := fs[..|fs| - 1];
      var last := fs[|fs| - 1];
      UniqueFirstByName(init);
      var u0 := Unique(init);
      assert fs == init + [last];
      NamesSnoc(init, last);
      var u := Unique(fs);
      forall k | 0 <= k < |u|
        ensures exists i :: 0 <= i < |fs| && fs[i] == u[k] && FirstOfName(fs, i)
      {
        if k < |u0| {
          var i :| 0 <= i < |init| && init[i] == u0[k] && FirstOfName(init, i);
          assert fs[i] == u[k];
          assert FirstOfName(fs, i);
        } else {
          assert last.name !in Names(init);
          assert u[k] == last;
          forall j | 0 <= j < |fs| - 1 ensures fs[j].name != last.name {
            assert init[j] == fs[j];
          }
          assert FirstOfName(fs, |fs| - 1);
        }
      }
      if last.name !in Names(u0) {
        NamesSnoc(u0, last);
        forall a, b | 0 <= a < b < |u| ensures u[a].name != u[b].name {
          if b == |u0| {
            assert u[a] == u0[a];
          }
        }
      }
    }
  }

  /** The label anchor: the first fill triangle's centre, at mid-height of the volume. */
  function Anchor(f: AirspaceFeature): Vec3
    requires |f.fillVertices| >= 3
  {
    var v0 := f.fillVertices[0].position;
    var v1 := f.fillVertices[1].position;
    var v2 := f.fillVertices[2].position;
    Vec3((v0.x + v1.x + v2.x) / 3.0, (f.floorFeet + f.ceilingFeet) / 2.0 * AltitudeScale, (v0.z + v1.z + v2.z) / 3.0)
  }

  /** Features with a fill triangle whose anchor is within 500 of the camera; `distance` measures from the camera. */
  function Candidates(fs: seq<AirspaceFeature>, distance: Vec3 -> real): (r: seq<Candidate>)
    ensures |r| <= |fs|
    ensures forall k :: 0 <= k < |r| ==> r[k].distance <= MaxDistance && r[k].distance == distance(r[k].position)
  {
    if fs == [] then []
    else
      var init := Candidates(fs[..|fs| - 1], distance);
      var f := fs[|fs| - 1];
      if |f.fillVertices| < 3 then init
      else
        var position := Anchor(f);
        var d := distance(position);
        if d <= MaxDistance then init + [Candidate(f.name, position, d)] else init
  }

  function DistanceOf(c: Candidate): real { c.distance }

  function Min(a: nat, b: nat): nat { if a < b then a else b }

  /** The candidates nearest first, at most 60 of them. */
  function Nearest(cs: seq<Candidate>): seq<Candidate>
  {
    var sorted := SortBy(cs, DistanceOf);
    sorted[..Min(|sorted|, MaxVisibleLabels)]
  }

  /** The labels kept are ordered by distance: at most 60 of them, as many as there are candidates up to 60. */
  lemma NearestSorted(cs: seq<Candidate>)
    ensures var n := Nearest(cs);
      |n| <= MaxVisibleLabels && |n| == Min(|cs|, MaxVisibleLabels) &&
      (forall i, j :: 0 <= i < j < |n| ==> n[i].distance <= n[j].distance)
  {
    SortByIsSortedPermutation(cs, DistanceOf);
  }

  /** The labels kept are candidates, and none left out is nearer than one kept. */
  lemma NearestFirst(cs: seq<Candidate>)
    ensures var n := Nearest(cs);
      multiset(n) <= multiset(cs) &&
      (forall i, c :: 0 <= i < |n| && c in multiset(cs) - multiset(n) ==> n[i].distance <= c.distance)
  {
    var m := Min(|cs|, MaxVisibleLabels);
    SortedPrefix(cs, DistanceOf, m);
    SmallestFirst(cs, DistanceOf, m);
    var n := Nearest(cs);
    var sorted := SortBy(cs, DistanceOf);
    assert n == sorted[..m];
    forall i, c | 0 <= i < |n| && c in multiset(cs) - multiset(n)
      ensures n[i].distance <= c.distance
    {
      assert n[i] == sorted[i];
      assert DistanceOf(sorted[i]) <= DistanceOf(c);
    }
  }

  // ---------------------------------------------------------------------
  // Atlas slots
  // ---------------------------------------------------------------------

  /** The label cache (text to slot), the next unused slot, and the labels written this frame. */
  datatype Atlas = Atlas(cache: map<string, nat>, nextSlot: nat, labels: seq<LabelInstance>)

  /** Slots are handed out in order: the cache holds exactly slots 0 .. nextSlot-1, one text each. */
  ghost predicate AtlasValid(a: Atlas)
  {
    a.nextSlot <= MaxSlots && |a.cache| == a.nextSlot &&
    (forall t :: t in a.cache ==> a.cache[t] < a.nextSlot) &&
    (forall t, u :: t in a.cache && u in a.cache && t != u ==> a.cache[t] != a.cache[u])
  }

  function Label(c: Candidate, slot: nat): LabelInstance
    requires slot < MaxSlots
  {
    LabelInstance(c.position, LabelSize, SlotUV(slot), SlotSize, Opacity(c.distance))
  }

  /** One label: reuse the cached slot, else take the next one, else (atlas full) skip. */
  function Write(a: Atlas, c: Candidate): (r: Atlas)
    requires AtlasValid(a)
    ensures AtlasValid(r)
  {
    var text := LabelText(c.name);
    if text in a.cache then
      Atlas(a.cache, a.nextSlot, a.labels + [Label(c, a.cache[text])])
    else if a.nextSlot >= MaxSlots then a
    else
      Atlas(a.cache[text := a.nextSlot], a.nextSlot + 1, a.labels + [Label(c, a.nextSlot)])
  }

  function WriteAll(a: Atlas, cs: seq<Candidate>): (r: Atlas)
    requires AtlasValid(a)
    ensures AtlasValid(r)
  {
    if cs == [] then a else Write(WriteAll(a, cs[..|cs| - 1]), cs[|cs| - 1])
  }

  /** Writing labels never forgets or moves a cached slot, and takes at most one new slot per candidate. */
  lemma {:induction false} WriteAllKeepsSlots(a: Atlas, cs: seq<Candidate>)
    requires AtlasValid(a)
    ensures var r := WriteAll(a, cs);
      (forall t :: t in a.cache ==> t in r.cache && r.cache[t] == a.cache[t]) &&
      a.nextSlot <= r.nextSlot <= a.nextSlot + |cs|
  {
    if cs != [] {
      var m := WriteAll(a, cs[..|cs| - 1]);
      WriteAllKeepsSlots(a, cs[..|cs| - 1]);
      WriteKeepsSlots(m, cs[|cs| - 1]);
      assert WriteAll(a, cs) == Write(m, cs[|cs| - 1]);
    }
  }

  /** One write keeps every cached slot and takes at most one new slot. */
  lemma WriteKeepsSlots(m: Atlas, c: Candidate)
    requires AtlasValid(m)
    ensures var r := Write(m, c);
      (forall t :: t in m.cache ==> t in r.cache && r.cache[t] == m.cache[t]) &&
      m.nextSlot <= r.nextSlot <= m.nextSlot + 1
  {
  }

  /** One write appends one label or none, and none only when the atlas is full. */
  lemma WriteStep(m: Atlas, c: Candidate)
    requires AtlasValid(m)
    ensures var r := Write(m, c);
      m.nextSlot <= r.nextSlot &&
      (r.labels == m.labels || (exists x :: r.labels == m.labels + [x])) &&
      (r.nextSlot < MaxSlots ==> |r.labels| == |m.labels| + 1)
  {
  }

  /**
   * Writing labels appends at most one label per candidate after those
   * already written; while slots remain, every candidate gets its label.
   */
  lemma {:induction false} WriteAllLabels(a: Atlas, cs: seq<Candidate>)
    requires AtlasValid(a)
    ensures var r := WriteAll(a, cs);
      |a.labels| <= |r.labels| <= |a.labels| + |cs| && r.labels[..|a.labels|] == a.labels &&
      (r.nextSlot < MaxSlots ==> |r.labels| == |a.labels| + |cs|)
  {
    if cs != [] {
      var m := WriteAll(a, cs[..|cs| - 1]);
      WriteAllLabels(a, cs[..|cs| - 1]);
      WriteStep(m, cs[|cs| - 1]);
    }
  }

  /** Every text that gained a slot is the label text of one of the candidates. */
  lemma {:induction false} WriteAllNewTexts(a: Atlas, cs: seq<Candidate>)
    requires AtlasValid(a)
    ensures var r := WriteAll(a, cs);
      forall t :: t in r.cache && t !in a.cache ==> exists k :: 0 <= k < |cs| && LabelText(cs[k].name) == t
  {
    if cs != [] {
      var init := cs[..|cs| - 1];
      WriteAllNewTexts(a, init);
      var m := WriteAll(a, init);
      var r := Write(m, cs[|cs| - 1]);
      forall t | t in r.cache && t !in a.cache
        ensures exists k :: 0 <= k < |cs| && LabelText(cs[k].name) == t
      {
        if t in m.cache {
          var k :| 0 <= k < |init| && LabelText(init[k].name) == t;
          assert cs[k] == init[k];
        } else {
          assert LabelText(cs[|cs| - 1].name) == t;
        }
      }
    }
  }

  /** What one update writes and leaves in the cache. */
  function Frame(features: seq<AirspaceFeature>, showB: bool, showC: bool, showD: bool, distance: Vec3 -> real,
                 cache: map<string, nat>, nextSlot: nat): Atlas
    requires AtlasValid(Atlas(cache, nextSlot, []))
  {
    WriteAll(Atlas(cache, nextSlot, []), Nearest(Candidates(Unique(OfClassAny(features, showB, showC, showD)), distance)))
  }

  /** An update writes at most 60 labels, stays within the atlas and keeps every cached slot. */
  lemma FrameBounds(features: seq<AirspaceFeature>, showB: bool, showC: bool, showD: bool, distance: Vec3 -> real,
                    cache: map<string, nat>, nextSlot: nat)
    requires AtlasValid(Atlas(cache, nextSlot, []))
    ensures var r := Frame(features, showB, showC, showD, distance, cache, nextSlot);
      |r.labels| <= MaxVisibleLabels && r.nextSlot <= MaxSlots &&
      forall t :: t in cache ==> t in r.cache && r.cache[t] == cache[t]
  {
    var cs := Candidates(Unique(OfClassAny(features, showB, showC, showD)), distance);
    NearestSorted(cs);
    WriteAllKeepsSlots(Atlas(cache, nextSlot, []), Nearest(cs));
    WriteAllLabels(Atlas(cache, nextSlot, []), Nearest(cs));
  }

  // ---------------------------------------------------------------------
  // The manager
  // ---------------------------------------------------------------------

  class AirspaceLabelManager {
    var labelCache: map<string, nat>
    var nextSlot: nat
    /** The labels of the frame last written. */
    var labels: seq<LabelInstance>

    ghost predicate Valid()
      reads this
    {
      AtlasValid(Atlas(labelCache, nextSlot, labels)) && |labels| <= MaxVisibleLabels
    }

    constructor ()
      ensures Valid() && labelCache == map[] && nextSlot == 0 && labels == []
    {
      labelCache := map[];
      nextSlot := 0;
      labels := [];
    }

    /** `updateTheme`: every cached label must be drawn again, from slot 0. */
    method UpdateTheme()
      requires Valid()
      modifies this
      ensures Valid() && labelCache == map[] && nextSlot == 0 && labels == old(labels)
    {
      labelCache := map[];
      nextSlot := 0;
    }

    /** `update(features:…)`; `distance` gives the distance from the camera. */
    method Update(features: seq<AirspaceFeature>, showB: bool, showC: bool, showD: bool, distance: Vec3 -> real)
      requires Valid()
      modifies this
      ensures Valid()
      ensures Atlas(labelCache, nextSlot, labels) ==
        Frame(features, showB, showC, showD, distance, old(labelCache), old(nextSlot))
    {
      var visible := Airspace.Visible(features, showB, showC, showD);
      var unique := Deduplicate(visible);
      var candidates := Cull(unique, distance);
      var sorted := SortBy(candidates, DistanceOf);
      var nearest := sorted[..Min(|sorted|, MaxVisibleLabels)];
      var atlas := WriteLabels(Atlas(labelCache, nextSlot, []), nearest);
      FrameBounds(features, showB, showC, showD, distance, labelCache, nextSlot);
      labelCache, nextSlot, labels := atlas.cache, atlas.nextSlot, atlas.labels;
    }
  }

  /** The `seenNames` loop. */
  method Deduplicate(fs: seq<AirspaceFeature>) returns (unique: seq<AirspaceFeature>)
    ensures unique == Unique(fs)
  {
    var seenNames: set<string> := {};
    unique := [];
    var i := 0;
    while i < |fs|
      invariant 0 <= i <= |fs| && unique == Unique(fs[..i]) && seenNames == Names(unique)
    {
      assert fs[..i + 1][..i] == fs[..i];
      if fs[i].name !in seenNames {
        seenNames := seenNames + {fs[i].name};
        NamesSnoc(unique, fs[i]);
        unique := unique + [fs[i]];
      }
      i := i + 1;
    }
    assert fs[..i] == fs;
  }

  /** The centroid and distance loop. */
  method Cull(fs: seq<AirspaceFeature>, distance: Vec3 -> real) returns (candidates: seq<Candidate>)
    ensures candidates == Candidates(fs, distance)
  {
    candidates := [];
    var i := 0;
    while i < |fs|
      invariant 0 <= i <= |fs| && candidates == Candidates(fs[..i], distance)
    {
      assert fs[..i + 1][..i] == fs[..i];
      var f := fs[i];
      if |f.fillVertices| >= 3 {
        var position := Anchor(f);
        var d := distance(position);
        if d <= MaxDistance {
          candidates := candidates + [Candidate(f.name, position, d)];
        }
      }
      i := i + 1;
    }
    assert fs[..i] == fs;
  }

  /** The label-writing loop. */
  method WriteLabels(start: Atlas, cs: seq<Candidate>) returns (a: Atlas)
    requires AtlasValid(start)
    ensures a == WriteAll(start, cs)
  {
    a := start;
    var i := 0;
    while i < |cs|
      invariant 0 <= i <= |cs| && AtlasValid(a) && a == WriteAll(start, cs[..i])
    {
      assert cs[..i + 1][..i] == cs[..i];
      a := WriteLabel(a, cs[i]);
      i := i + 1;
    }
    assert cs[..i] == cs;
  }

  /** One pass of the label-writing loop: cache lookup, slot claim or skip, then the instance. */
  method WriteLabel(a: Atlas, c: Candidate) returns (r: Atlas)
    requires AtlasValid(a)
    ensures r == Write(a, c)
  {
    var text := LabelText(c.name);
    var slot: nat;
    if text in a.cache {
      slot := a.cache[text];
      return Atlas(a.cache, a.nextSlot, a.labels + [Label(c, slot)]);
    }
    if a.nextSlot >= MaxSlots {
      return a;
    }
    slot := a.nextSlot;
    r := Atlas(a.cache[text := slot], a.nextSlot + 1, a.labels + [Label(c, slot)]);
  }
}
