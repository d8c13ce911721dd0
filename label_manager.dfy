/**
 * Aircraft labels: a 256-slot texture atlas handed out first-free, a cache
 * from aircraft to (text, slot), per-frame label instances and altitude
 * lines, and eviction of labels missing for more than 180 frames.
 */
module Labels {
  import opened Wrappers
  import opened Text
  import opened Geometry
  import opened RenderState

  const AtlasWidth: nat := 2048
  const AtlasHeight: nat := 2048
  const SlotWidth: nat := 256
  const SlotHeight: nat := 64
  const ColumnsPerRow: nat := 8
  const RowCount: nat := 32
  const MaxSlots: nat := ColumnsPerRow * RowCount
  const MaxLabels: nat := 256
  const MaxLabelDistance: real := 300.0
  const FadeLabelDistance: real := 150.0
  /** Frames a cached label may be missing before its slot is reclaimed. */
  const MissingFrameLimit: int := 180

  datatype CachedLabel = CachedLabel(text: string, slot: int)

  datatype LabelInstance = LabelInstance(position: Vec3, size: real, atlasU: real, atlasV: real,
                                         atlasSizeU: real, atlasSizeV: real, opacity: real)

  datatype AltLineVertex = AltLineVertex(position: Vec3, worldY: real, color: Color)

  type Cache = map<string, CachedLabel>

  /** The text drawn for an aircraft: callsign (or hex when empty), a newline, and whole feet. */
  function LabelText(s: InterpolatedAircraftState): (t: string)
    ensures s.callsign != [] ==> HasPrefix(t, s.callsign + "\n")
    ensures s.callsign == [] ==> HasPrefix(t, s.hex + "\n")
    ensures |t| >= 2 && t[|t| - 2..] == "ft"
    ensures var h := if s.callsign == [] then s.hex else s.callsign;
      |h| + 3 <= |t| && SignedValue(t[|h| + 1..|t| - 2]) == Trunc(s.altitude)
  {
    var h := if s.callsign == [] then s.hex else s.callsign;
    var a := IntToString(Trunc(s.altitude));
    var t := h + "\n" + a + "ft";
    assert t[|h| + 1..|t| - 2] == a;
    t
  }

  /** Opacity by distance: full below the fade distance, then linear down to 0 at the maximum. */
  function LabelOpacity(distance: real): (o: real)
    ensures 0.0 <= distance <= MaxLabelDistance ==> 0.0 <= o <= 1.0
    ensures distance <= FadeLabelDistance ==> o == 1.0
    ensures FadeLabelDistance <= distance ==> o == 1.0 - (distance - FadeLabelDistance) / 150.0
    ensures distance == MaxLabelDistance ==> o == 0.0
  {
    Fade(distance, FadeLabelDistance, MaxLabelDistance)
  }

  /** Between 150 and 300 the opacity falls by 1/150 for every unit of distance. */
  lemma LabelOpacityLinear(d1: real, d2: real)
    requires FadeLabelDistance <= d1 <= d2
    ensures LabelOpacity(d1) - LabelOpacity(d2) == (d2 - d1) / 150.0
  {
    FadeLinear(d1, d2, FadeLabelDistance, MaxLabelDistance);
  }

  /** The lowest free slot, if any. */
  function FirstFree(slots: seq<bool>): (r: Option<nat>)
    ensures r.None? <==> forall i :: 0 <= i < |slots| ==> slots[i]
    ensures r.Some? ==> r.value < |slots| && !slots[r.value] && forall j :: 0 <= j < r.value ==> slots[j]
  {
    if slots == [] then None
    else if !slots[0] then Some(0)
    else match FirstFree(slots[1..]) {
      case None => None
      case Some(k) => Some(k + 1)
    }
  }

  /** The instance written for a label in `slot`. */
  function Instance(s: InterpolatedAircraftState, slot: int, opacity: real): LabelInstance
  {
    var col := slot % ColumnsPerRow;
    var row := slot / ColumnsPerRow;
    LabelInstance(Vec3(s.position.x, s.position.y + 4.0, s.position.z), 8.0,
                  (col * SlotWidth) as real / AtlasWidth as real, (row * SlotHeight) as real / AtlasHeight as real,
                  SlotWidth as real / AtlasWidth as real, SlotHeight as real / AtlasHeight as real, opacity)
  }

  /** The two altitude-line vertices: at the aircraft and straight below it on the ground. */
  function AltLine(s: InterpolatedAircraftState, color: Color): seq<AltLineVertex>
  {
    [AltLineVertex(s.position, s.position.y, color), AltLineVertex(Vec3(s.position.x, 0.0, s.position.z), 0.0, color)]
  }

  /** The state the per-aircraft loop of `update` carries from one aircraft to the next. */
  datatype Frame = Frame(cache: Cache, slots: seq<bool>, active: set<string>,
                         labels: seq<LabelInstance>, altLines: seq<AltLineVertex>)

  /** One aircraft of the loop. */
  function Place(f: Frame, s: InterpolatedAircraftState, distanceTo: Vec3 -> real, lineColor: Color): (r: Frame)
  {
    if |f.labels| >= MaxLabels || distanceTo(s.position) > MaxLabelDistance then f
    else
      var opacity := LabelOpacity(distanceTo(s.position));
      var text := LabelText(s);
      var f1 := f.(active := f.active + {s.hex});
      if s.hex in f.cache then
        var slot := f.cache[s.hex].slot;
        var f2 := if f.cache[s.hex].text != text then f1.(cache := f.cache[s.hex := CachedLabel(text, slot)]) else f1;
        f2.(labels := f.labels + [Instance(s, slot, opacity)], altLines := f.altLines + AltLine(s, lineColor))
      else
        match FirstFree(f.slots) {
          case None => f1
          case Some(k) =>
            f1.(cache := f.cache[s.hex := CachedLabel(text, k)], slots := f.slots[k := true],
                labels := f.labels + [Instance(s, k, opacity)], altLines := f.altLines + AltLine(s, lineColor))
        }
  }

  function PlaceAll(f: Frame, states: seq<InterpolatedAircraftState>, distanceTo: Vec3 -> real, lineColor: Color): Frame
  {
    if states == [] then f
    else Place(PlaceAll(f, states[..|states| - 1], distanceTo, lineColor), states[|states| - 1], distanceTo, lineColor)
  }

  /** Cached labels match used slots one to one. */
  ghost predicate SlotsMatch(cache: Cache, slots: seq<bool>)
  {
    |slots| == MaxSlots &&
    (forall h :: h in cache ==> 0 <= cache[h].slot < |slots|) &&
    (forall h, g :: h in cache && g in cache && cache[h].slot == cache[g].slot ==> h == g) &&
    (forall i :: 0 <= i < |slots| ==> (slots[i] <==> exists h :: h in cache && cache[h].slot == i))
  }

  /** Rewriting a cached label's text in its own slot keeps slots one-to-one with the cache. */
  lemma RetextPreserves(cache: Cache, slots: seq<bool>, hex: string, text: string)
    requires SlotsMatch(cache, slots) && hex in cache
    ensures SlotsMatch(cache[hex := CachedLabel(text, cache[hex].slot)], slots)
  {
    var r := cache[hex := CachedLabel(text, cache[hex].slot)];
    assert r.Keys == cache.Keys;
    assert forall h :: h in r ==> r[h].slot == cache[h].slot;
  }

  /** Claiming a free slot for an uncached aircraft keeps slots one-to-one with the cache. */
  lemma ClaimPreserves(cache: Cache, slots: seq<bool>, hex: string, text: string, k: nat)
    requires SlotsMatch(cache, slots) && hex !in cache && k < |slots| && !slots[k]
    ensures SlotsMatch(cache[hex := CachedLabel(text, k)], slots[k := true])
  {
    var r := cache[hex := CachedLabel(text, k)];
    var rs := slots[k := true];
    assert forall h :: h in cache ==> cache[h].slot != k;
    forall i | 0 <= i < |rs|
      ensures rs[i] <==> exists h :: h in r && r[h].slot == i
    {
      assert r[hex].slot == k;
      if i != k && slots[i] {
        var h :| h in cache && cache[h].slot == i;
        assert h in r && r[h].slot == i;
      }
    }
  }

  /** Each aircraft keeps the slots one-to-one with the cache, and keeps every cached slot. */
  lemma PlacePreserves(f: Frame, s: InterpolatedAircraftState, distanceTo: Vec3 -> real, lineColor: Color)
    requires SlotsMatch(f.cache, f.slots)
    ensures var r := Place(f, s, distanceTo, lineColor);
      SlotsMatch(r.cache, r.slots) &&
      (forall h :: h in f.cache ==> h in r.cache && r.cache[h].slot == f.cache[h].slot)
  {
    if |f.labels| < MaxLabels && distanceTo(s.position) <= MaxLabelDistance {
      if s.hex in f.cache {
        RetextPreserves(f.cache, f.slots, s.hex, LabelText(s));
      } else if FirstFree(f.slots).Some? {
        ClaimPreserves(f.cache, f.slots, s.hex, LabelText(s), FirstFree(f.slots).value);
      }
    }
  }

  /** What an aircraft's label becomes: its current text, in its old slot or the lowest free one. */
  lemma PlaceLabels(f: Frame, s: InterpolatedAircraftState, distanceTo: Vec3 -> real, lineColor: Color)
    requires |f.labels| < MaxLabels && distanceTo(s.position) <= MaxLabelDistance
    ensures var r := Place(f, s, distanceTo, lineColor);
      s.hex in r.active &&
      (s.hex in f.cache ==> r.cache[s.hex] == CachedLabel(LabelText(s), f.cache[s.hex].slot)) &&
      (s.hex !in f.cache && FirstFree(f.slots).Some? ==>
        r.cache[s.hex] == CachedLabel(LabelText(s), FirstFree(f.slots).value) && !f.slots[FirstFree(f.slots).value]) &&
      (s.hex !in f.cache && FirstFree(f.slots).None? ==> s.hex !in r.cache && r.labels == f.labels)
  {
  }

  /** At most 256 labels are written, each with exactly two altitude-line vertices. */
  lemma {:induction false} PlaceAllCounts(f: Frame, states: seq<InterpolatedAircraftState>, distanceTo: Vec3 -> real, lineColor: Color)
    requires |f.labels| <= MaxLabels && |f.altLines| == 2 * |f.labels|
    ensures var r := PlaceAll(f, states, distanceTo, lineColor);
      |r.labels| <= MaxLabels && |r.altLines| == 2 * |r.labels|
  {
    if states != [] {
      PlaceAllCounts(f, states[..|states| - 1], distanceTo, lineColor);
    }
  }

  lemma {:induction false} PlaceAllPreserves(f: Frame, states: seq<InterpolatedAircraftState>, distanceTo: Vec3 -> real, lineColor: Color)
    requires SlotsMatch(f.cache, f.slots)
    ensures var r := PlaceAll(f, states, distanceTo, lineColor);
      SlotsMatch(r.cache, r.slots) && f.cache.Keys <= r.cache.Keys
  {
    if states != [] {
      var init := states[..|states| - 1];
      PlaceAllPreserves(f, init, distanceTo, lineColor);
      PlacePreserves(PlaceAll(f, init, distanceTo, lineColor), states[|states| - 1], distanceTo, lineColor);
    }
  }

  /** Once 256 labels are written, the remaining aircraft change nothing. */
  lemma {:induction false} FullFrameStaysPut(f: Frame, states: seq<InterpolatedAircraftState>, i: nat, distanceTo: Vec3 -> real, lineColor: Color)
    requires i <= |states| && |PlaceAll(f, states[..i], distanceTo, lineColor).labels| >= MaxLabels
    ensures PlaceAll(f, states, distanceTo, lineColor) == PlaceAll(f, states[..i], distanceTo, lineColor)
    decreases |states| - i
  {
    if i < |states| {
      assert states[..i + 1][..i] == states[..i];
      FullFrameStaysPut(f, states, i + 1, distanceTo, lineColor);
    } else {
      assert states[..i] == states;
    }
  }

  // ---------------------------------------------------------------------
  // Stale labels
  // ---------------------------------------------------------------------

  function NextMissing(missing: map<string, int>, hex: string): int
  {
    (if hex in missing then missing[hex] else 0) + 1
  }

  /** Cached labels not active this frame whose missing count passes 180. */
  function Stale(cache: Cache, missing: map<string, int>, active: set<string>): set<string>
  {
    set h | h in cache && h !in active && NextMissing(missing, h) > MissingFrameLimit
  }

  function FreedSlots(cache: Cache, stale: set<string>): set<int>
    requires stale <= cache.Keys
  {
    set h | h in stale :: cache[h].slot
  }

  function SlotsAfterStale(cache: Cache, slots: seq<bool>, missing: map<string, int>, active: set<string>): (r: seq<bool>)
    ensures |r| == |slots|
  {
    var freed := FreedSlots(cache, Stale(cache, missing, active));
    seq(|slots|, i requires 0 <= i < |slots| => slots[i] && i !in freed)
  }

  /** Missing counts after the counting loop: reset for active labels, bumped for the rest. */
  function Counted(cache: Cache, missing: map<string, int>, active: set<string>): map<string, int>
  {
    map h | h in missing.Keys + cache.Keys ::
      if h !in cache then missing[h] else if h in active then 0 else NextMissing(missing, h)
  }

  function MissingAfterStale(cache: Cache, missing: map<string, int>, active: set<string>): map<string, int>
  {
    Counted(cache, missing, active) - Stale(cache, missing, active)
  }

  /** Freeing one more label's slot. */
  lemma FreedSlotsAdd(cache: Cache, done: set<string>, hex: string)
    requires done <= cache.Keys && hex in cache
    ensures FreedSlots(cache, done + {hex}) == FreedSlots(cache, done) + {cache[hex].slot}
  {
  }

  /** Dropping stale labels keeps slots one-to-one with the remaining cache. */
  lemma StalePreserves(cache: Cache, slots: seq<bool>, missing: map<string, int>, active: set<string>)
    requires SlotsMatch(cache, slots)
    ensures SlotsMatch(cache - Stale(cache, missing, active), SlotsAfterStale(cache, slots, missing, active))
  {
    var stale := Stale(cache, missing, active);
    var kept := cache - stale;
    var r := SlotsAfterStale(cache, slots, missing, active);
    var freed := FreedSlots(cache, stale);
    forall i | 0 <= i < |r|
      ensures r[i] <==> exists h :: h in kept && kept[h].slot == i
    {
      if r[i] {
        var h :| h in cache && cache[h].slot == i;
        assert h in stale ==> i in freed;
        assert h in kept;
      }
      if exists h :: h in kept && kept[h].slot == i {
        var h :| h in kept && kept[h].slot == i;
        assert slots[i];
        assert forall g :: g in stale ==> g != h && cache[g].slot != i;
        assert i !in freed;
      }
    }
  }

  /** A label absent for more than 180 consecutive frames is dropped; an active one's count resets. */
  lemma StaleCounting(cache: Cache, missing: map<string, int>, active: set<string>, hex: string)
    requires hex in cache
    ensures hex in active ==> hex !in Stale(cache, missing, active) && MissingAfterStale(cache, missing, active)[hex] == 0
    ensures hex !in active ==> (hex in Stale(cache, missing, active) <==> NextMissing(missing, hex) > MissingFrameLimit)
    ensures hex !in Stale(cache, missing, active) && hex !in active ==>
      MissingAfterStale(cache, missing, active)[hex] == NextMissing(missing, hex)
  {
  }

  // ---------------------------------------------------------------------
  // The manager
  // ---------------------------------------------------------------------

  class LabelManager {
    var labelCache: Cache
    const slotAllocator: array<bool>
    var missingFrames: map<string, int>
    var altLineColor: Color
    /** The label instances and altitude-line vertices the last update wrote, and their counts. */
    var labels: seq<LabelInstance>
    var altLines: seq<AltLineVertex>
    var labelCount: int
    var altLineVertexCount: int

    ghost predicate Valid()
      reads this, slotAllocator
    {
      SlotsMatch(labelCache, slotAllocator[..]) &&
      missingFrames.Keys == labelCache.Keys &&
      labelCount == |labels| <= MaxLabels && altLineVertexCount == |altLines| == 2 * labelCount
    }

    constructor ()
      ensures Valid() && fresh(slotAllocator)
      ensures labelCache == map[] && missingFrames == map[] && labelCount == 0
      ensures forall i :: 0 <= i < MaxSlots ==> !slotAllocator[i]
    {
      labelCache := map[];
      missingFrames := map[];
      slotAllocator := new bool[MaxSlots](_ => false);
      altLineColor := Color(0.5, 0.5, 0.5, 0.3);
      labels, altLines := [], [];
      labelCount, altLineVertexCount := 0, 0;
    }

    /** `allocateSlot`: claim the lowest free slot, or none when all 256 are used. */
    method AllocateSlot() returns (r: Option<nat>)
      requires slotAllocator.Length == MaxSlots
      modifies slotAllocator
      ensures r == FirstFree(old(slotAllocator[..]))
      ensures r.Some? ==> slotAllocator[..] == old(slotAllocator[..])[r.value := true]
      ensures r.None? ==> slotAllocator[..] == old(slotAllocator[..])
    {
      var i := 0;
      while i < slotAllocator.Length
        invariant 0 <= i <= slotAllocator.Length
        invariant forall j :: 0 <= j < i ==> slotAllocator[j]
      {
        if !slotAllocator[i] {
          slotAllocator[i] := true;
          return Some(i);
        }
        i := i + 1;
      }
      return None;
    }

    /** `freeSlot`: release a slot; indices outside the atlas are ignored. */
    method FreeSlot(slot: int)
      modifies slotAllocator
      ensures 0 <= slot < slotAllocator.Length ==> slotAllocator[..] == old(slotAllocator[..])[slot := false]
      ensures !(0 <= slot < slotAllocator.Length) ==> slotAllocator[..] == old(slotAllocator[..])
    {
      if 0 <= slot < slotAllocator.Length {
        slotAllocator[slot] := false;
      }
    }

    /** `invalidateCache`: free every cached slot and forget all labels. */
    method InvalidateCache()
      requires Valid()
      modifies this, slotAllocator
      ensures Valid() && labelCache == map[] && missingFrames == map[]
      ensures forall i :: 0 <= i < slotAllocator.Length ==> !slotAllocator[i]
      ensures labels == old(labels) && altLines == old(altLines)
    {
      ghost var slots0 := slotAllocator[..];
      var pending := labelCache.Keys;
      while pending != {}
        invariant pending <= labelCache.Keys && unchanged(this)
        invariant forall i :: 0 <= i < MaxSlots ==>
          slotAllocator[i] == (slots0[i] && i !in FreedSlots(labelCache, labelCache.Keys - pending))
        decreases pending
      {
        var hex :| hex in pending;
        FreeSlot(labelCache[hex].slot);
        FreedSlotsAdd(labelCache, labelCache.Keys - pending, hex);
        assert labelCache.Keys - (pending - {hex}) == (labelCache.Keys - pending) + {hex};
        pending := pending - {hex};
      }
      forall i | 0 <= i < MaxSlots
        ensures !slotAllocator[i]
      {
        if slots0[i] {
          var h :| h in labelCache && labelCache[h].slot == i;
          assert i in FreedSlots(labelCache, labelCache.Keys);
        }
      }
      labelCache := map[];
      missingFrames := map[];
    }

    /** `update(states:bufferIndex:cameraPosition:)`; `distanceTo` gives an aircraft's distance from the camera. */
    method Update(states: seq<InterpolatedAircraftState>, distanceTo: Vec3 -> real)
      requires Valid()
      modifies this, slotAllocator
      ensures Valid() && altLineColor == old(altLineColor)
      ensures var f := PlaceAll(Frame(old(labelCache), old(slotAllocator[..]), {}, [], []), states, distanceTo, altLineColor);
        labels == f.labels && altLines == f.altLines &&
        labelCache == f.cache - Stale(f.cache, old(missingFrames), f.active) &&
        slotAllocator[..] == SlotsAfterStale(f.cache, f.slots, old(missingFrames), f.active) &&
        missingFrames == MissingAfterStale(f.cache, old(missingFrames), f.active)
    {
      var active, out, lines := PlaceLabels(states, distanceTo);
      RemoveStale(active);
      labels, altLines := out, lines;
      labelCount, altLineVertexCount := |out|, |lines|;
    }

    /** The per-aircraft loop of `update`: it stops once the label buffer is full. */
    method PlaceLabels(states: seq<InterpolatedAircraftState>, distanceTo: Vec3 -> real)
      returns (active: set<string>, out: seq<LabelInstance>, lines: seq<AltLineVertex>)
      requires Valid()
      modifies this`labelCache, slotAllocator
      ensures var f := PlaceAll(Frame(old(labelCache), old(slotAllocator[..]), {}, [], []), states, distanceTo, altLineColor);
        labelCache == f.cache && slotAllocator[..] == f.slots && active == f.active && out == f.labels && lines == f.altLines
      ensures SlotsMatch(labelCache, slotAllocator[..]) && old(labelCache).Keys <= labelCache.Keys
      ensures |out| <= MaxLabels && |lines| == 2 * |out|
    {
      ghost var f0 := Frame(labelCache, slotAllocator[..], {}, [], []);
      active, out, lines := {}, [], [];
      var i := 0;
      while i < |states|
        invariant 0 <= i <= |states| && slotAllocator.Length == MaxSlots
        invariant var f := PlaceAll(f0, states[..i], distanceTo, altLineColor);
          labelCache == f.cache && slotAllocator[..] == f.slots && active == f.active && out == f.labels && lines == f.altLines
      {
        if |out| >= MaxLabels {
          FullFrameStaysPut(f0, states, i, distanceTo, altLineColor);
          break;
        }
        assert PlaceAll(f0, states[..i + 1], distanceTo, altLineColor) ==
               Place(PlaceAll(f0, states[..i], distanceTo, altLineColor), states[i], distanceTo, altLineColor) by {
          assert states[..i + 1][..i] == states[..i];
        }
        active, out, lines := PlaceOne(states[i], distanceTo, active, out, lines, PlaceAll(f0, states[..i], distanceTo, altLineColor));
        i := i + 1;
      }
      if i == |states| {
        assert states[..i] == states;
      }
      assert SlotsMatch(labelCache, slotAllocator[..]) && f0.cache.Keys <= labelCache.Keys by {
        PlaceAllPreserves(f0, states, distanceTo, altLineColor);
      }
      assert |out| <= MaxLabels && |lines| == 2 * |out| by {
        PlaceAllCounts(f0, states, distanceTo, altLineColor);
      }
    }

    /** The body of the per-aircraft loop. */
    method PlaceOne(s: InterpolatedAircraftState, distanceTo: Vec3 -> real, active0: set<string>,
                    out0: seq<LabelInstance>, lines0: seq<AltLineVertex>, ghost f0: Frame)
      returns (active: set<string>, out: seq<LabelInstance>, lines: seq<AltLineVertex>)
      requires slotAllocator.Length == MaxSlots && |out0| < MaxLabels
      requires f0.cache == labelCache && f0.slots == slotAllocator[..] && f0.active == active0
      requires f0.labels == out0 && f0.altLines == lines0
      modifies this`labelCache, slotAllocator
      ensures var f := Place(f0, s, distanceTo, altLineColor);
        labelCache == f.cache && slotAllocator[..] == f.slots && active == f.active && out == f.labels && lines == f.altLines
    {
      active, out, lines := active0, out0, lines0;
      var distance := distanceTo(s.position);
      if distance > MaxLabelDistance {
        return;
      }
      var opacity := LabelOpacity(distance);
      active := active + {s.hex};
      var text := LabelText(s);
      var slot: int;
      if s.hex in labelCache {
        slot := labelCache[s.hex].slot;
        if labelCache[s.hex].text != text {
          labelCache := labelCache[s.hex := CachedLabel(text, slot)];
        }
      } else {
        var claimed := AllocateSlot();
        if claimed.None? {
          return;
        }
        slot := claimed.value;
        labelCache := labelCache[s.hex := CachedLabel(text, slot)];
      }
      out := out + [Instance(s, slot, opacity)];
      lines := lines + AltLine(s, altLineColor);
    }

    /** The stale-label pass at the end of `update`. */
    method RemoveStale(active: set<string>)
      requires slotAllocator.Length == MaxSlots && SlotsMatch(labelCache, slotAllocator[..])
      requires missingFrames.Keys <= labelCache.Keys
      modifies this`labelCache, this`missingFrames, slotAllocator
      ensures labelCache == old(labelCache) - Stale(old(labelCache), old(missingFrames), active)
      ensures slotAllocator[..] == SlotsAfterStale(old(labelCache), old(slotAllocator[..]), old(missingFrames), active)
      ensures missingFrames == MissingAfterStale(old(labelCache), old(missingFrames), active)
      ensures SlotsMatch(labelCache, slotAllocator[..])
      ensures missingFrames.Keys == labelCache.Keys
    {
      ghost var cache0 := labelCache;
      ghost var slots0 := slotAllocator[..];
      var toRemove := CountMissing(active);
      RemoveLabels(toRemove);
      assert slotAllocator[..] == SlotsAfterStale(cache0, slots0, old(missingFrames), active);
      StalePreserves(cache0, slots0, old(missingFrames), active);
    }

    /** The removal loop of the stale pass: drop each label and free its slot. */
    method RemoveLabels(toRemove: set<string>)
      requires slotAllocator.Length == MaxSlots && toRemove <= labelCache.Keys
      modifies this`labelCache, this`missingFrames, slotAllocator
      ensures labelCache == old(labelCache) - toRemove && missingFrames == old(missingFrames) - toRemove
      ensures forall i :: 0 <= i < MaxSlots ==> slotAllocator[i] == (old(slotAllocator[i]) && i !in FreedSlots(old(labelCache), toRemove))
    {
      ghost var cache0 := labelCache;
      ghost var slots0 := slotAllocator[..];
      var pending := toRemove;
      while pending != {}
        invariant pending <= toRemove
        invariant labelCache == cache0 - (toRemove - pending) && missingFrames == old(missingFrames) - (toRemove - pending)
        invariant forall i :: 0 <= i < MaxSlots ==> slotAllocator[i] == (slots0[i] && i !in FreedSlots(cache0, toRemove - pending))
        decreases pending
      {
        var hex :| hex in pending;
        var slot := labelCache[hex].slot;
        assert slot == cache0[hex].slot;
        FreeSlot(slot);
        labelCache := labelCache - {hex};
        missingFrames := missingFrames - {hex};
        FreedSlotsAdd(cache0, toRemove - pending, hex);
        ghost var done := toRemove - (pending - {hex});
        assert done == (toRemove - pending) + {hex};
        assert forall i :: 0 <= i < MaxSlots ==> slotAllocator[i] == (slots0[i] && i !in FreedSlots(cache0, done));
        pending := pending - {hex};
      }
    }

    /** The counting loop of the stale pass: reset active labels, bump the others, collect the stale. */
    method CountMissing(active: set<string>) returns (toRemove: set<string>)
      modifies this`missingFrames
      ensures missingFrames == Counted(labelCache, old(missingFrames), active)
      ensures toRemove == Stale(labelCache, old(missingFrames), active)
    {
      toRemove := {};
      var keys := labelCache.Keys;
      while keys != {}
        invariant keys <= labelCache.Keys
        invariant missingFrames.Keys == old(missingFrames).Keys + (labelCache.Keys - keys)
        invariant forall h :: h in missingFrames ==> missingFrames[h] == (if h !in labelCache || h in keys then old(missingFrames)[h] else if h in active then 0 else NextMissing(old(missingFrames), h))
        invariant toRemove == set h | h in labelCache && h !in keys && h !in active && NextMissing(old(missingFrames), h) > MissingFrameLimit
        decreases keys
      {
        var hex :| hex in keys;
        if hex !in active {
          var count := (if hex in missingFrames then missingFrames[hex] else 0) + 1;
          missingFrames := missingFrames[hex := count];
          if count > MissingFrameLimit {
            toRemove := toRemove + {hex};
          }
        } else {
          missingFrames := missingFrames[hex := 0];
        }
        keys := keys - {hex};
      }
    }
  }
}
