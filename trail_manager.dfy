/**
 * Per-aircraft trail history: bounded point buffers, consecutive-miss
 * eviction, and the flattening of all trails into one triangle-strip vertex
 * buffer with degenerate joins.
 */
module Trails {
  import opened Wrappers
  import opened Geometry
  import opened RenderState

  datatype TrailPoint = TrailPoint(position: Vec3, altitude: real)

  /** A trail of one aircraft, keeping at most `maxLength` newest points. */
  datatype TrailRingBuffer = TrailRingBuffer(points: seq<TrailPoint>, maxLength: nat)

  /** One vertex of the extruded polyline; `direction` says which side (+1 or -1). */
  datatype TrailVertex = TrailVertex(position: Vec3, direction: real, color: Color, prevPosition: Vec3, nextPosition: Vec3)

  const DefaultMaxTrailLength: int := 500
  const MinTrailLength: int := 50
  const MaxTrailLength: int := 4000
  const MaxAircraft: nat := 1024
  /** Vertex capacity of one frame's buffer: 1024 aircraft × (500 points × 2 sides + 2 degenerate). */
  const MaxVertices: nat := MaxAircraft * (500 * 2 + 2)
  /** Consecutive misses after which a trail is dropped. */
  const MissLimit: int := 3

  /** `TrailRingBuffer.append`: add the point, then drop the oldest beyond the cap. */
  function Append(rb: TrailRingBuffer, p: TrailPoint): (r: TrailRingBuffer)
    ensures r.maxLength == rb.maxLength
    ensures |r.points| == if |rb.points| + 1 > rb.maxLength then rb.maxLength else |rb.points| + 1
    ensures r.points == (rb.points + [p])[|rb.points| + 1 - |r.points|..]
  {
    var all := rb.points + [p];
    if |all| > rb.maxLength then rb.(points := all[|all| - rb.maxLength..]) else rb.(points := all)
  }

  /** A non-empty buffer keeps the new point as its newest, and an in-bound buffer stays in bound. */
  lemma AppendKeepsNewest(rb: TrailRingBuffer, p: TrailPoint)
    requires rb.maxLength >= 1
    ensures var r := Append(rb, p); r.points != [] && r.points[|r.points| - 1] == p
    ensures |rb.points| <= rb.maxLength ==> |Append(rb, p).points| <= rb.maxLength
  {
    var r := Append(rb, p);
    assert r.points[|r.points| - 1] == (rb.points + [p])[|rb.points|];
  }

  /** The `maxTrailLength` setter clamps into [50, 4000]. */
  function ClampTrailLength(v: int): (r: int)
    ensures MinTrailLength <= r <= MaxTrailLength
    ensures MinTrailLength <= v <= MaxTrailLength ==> r == v
    ensures v < MinTrailLength ==> r == MinTrailLength
    ensures v > MaxTrailLength ==> r == MaxTrailLength
  {
    if v < MinTrailLength then MinTrailLength else if v > MaxTrailLength then MaxTrailLength else v
  }

  // ---------------------------------------------------------------------
  // Colour
  // ---------------------------------------------------------------------

  /** Alpha along a trail: 0.3 for the oldest point rising linearly to 1.0 for the newest. */
  function TrailAlpha(i: nat, n: nat): (a: real)
    requires i < n
    ensures n > 1 && i == 0 ==> a == 0.3
    ensures i == n - 1 ==> a == 1.0
    ensures 0.3 <= a <= 1.0
  {
    if n > 1 then
      var f := i as real / (n - 1) as real;
      assert 0.0 <= f <= 1.0 by {
        assert i as real <= (n - 1) as real;
      }
      assert i == n - 1 ==> f == 1.0;
      0.3 + 0.7 * f
    else 1.0
  }

  /** From one point to the next the alpha rises by the same step, 0.7 / (n - 1). */
  lemma TrailAlphaStep(i: nat, n: nat)
    requires i + 1 < n
    ensures TrailAlpha(i + 1, n) - TrailAlpha(i, n) == 0.7 / (n - 1) as real
  {
    var k := (n - 1) as real;
    assert (i + 1) as real / k == i as real / k + 1.0 / k;
  }

  /** `altitudeColor`: green below 5000 ft, through yellow and orange to pink, with the trail alpha. */
  function AltitudeColor(altitude: real, i: nat, n: nat): (c: Color)
    requires i < n
    ensures c.a == TrailAlpha(i, n)
  {
    var a := TrailAlpha(i, n);
    if altitude < 5000.0 then Color(0.2, 0.8, 0.2, a)
    else if altitude < 15000.0 then
      var t := (altitude - 5000.0) / 10000.0;
      Color(0.2 + 0.8 * t, 0.8, 0.2 * (1.0 - t), a)
    else if altitude < 30000.0 then
      var t := (altitude - 15000.0) / 15000.0;
      Color(1.0, 0.8 - 0.3 * t, 0.0, a)
    else
      var t := if (altitude - 30000.0) / 15000.0 < 1.0 then (altitude - 30000.0) / 15000.0 else 1.0;
      Color(1.0, 0.5 - 0.1 * t, 0.3 * t, a)
  }

  /** The colour of point i: the tint with the trail alpha in retro mode, else the altitude ramp. */
  function PointColor(points: seq<TrailPoint>, i: nat, tint: Option<Color>): (c: Color)
    requires i < |points|
    ensures c.a == TrailAlpha(i, |points|)
  {
    if tint.Some? then Color(tint.value.r, tint.value.g, tint.value.b, TrailAlpha(i, |points|))
    else AltitudeColor(points[i].altitude, i, |points|)
  }

  // ---------------------------------------------------------------------
  // Flattening
  // ---------------------------------------------------------------------

  /** Vertex v of the strip for `points`: point v / 2, on side +1 for even v and -1 for odd v. */
  function StripVertex(points: seq<TrailPoint>, v: nat, tint: Option<Color>): TrailVertex
    requires v < 2 * |points|
  {
    var i := v / 2;
    TrailVertex(
      points[i].position,
      if v % 2 == 0 then 1.0 else -1.0,
      PointColor(points, i, tint),
      if i > 0 then points[i - 1].position else points[i].position,
      if i < |points| - 1 then points[i + 1].position else points[i].position)
  }

  /** The first 2k vertices of the strip for `points`. */
  function Strip(points: seq<TrailPoint>, k: nat, tint: Option<Color>): (r: seq<TrailVertex>)
    requires k <= |points|
    ensures |r| == 2 * k
  {
    seq(2 * k, v requires 0 <= v < 2 * k => StripVertex(points, v, tint))
  }

  /** The vertex opening a trail after a degenerate join: its first point on side +1. */
  function JoinVertex(points: seq<TrailPoint>, tint: Option<Color>): TrailVertex
    requires |points| >= 2
  {
    var c := if tint.Some? then tint.value.(a := 0.3) else AltitudeColor(points[0].altitude, 0, |points|);
    TrailVertex(points[0].position, 1.0, c, points[0].position, points[1].position)
  }

  function Min(a: int, b: int): int { if a < b then a else b }

  /** One trail of the flattening loop: the optional degenerate join, then as many points as fit. */
  function TrailStep(out: seq<TrailVertex>, first: bool, points: seq<TrailPoint>, maxVertices: nat,
                     tint: Option<Color>): (r: (seq<TrailVertex>, bool))
    requires |out| <= maxVertices
    ensures |r.0| <= maxVertices && |out| <= |r.0|
  {
    if |points| < 2 then (out, first)
    else
      var joined := if !first && |out| > 0 && |out| + 4 + 2 * |points| <= maxVertices
                    then out + [out[|out| - 1], JoinVertex(points, tint)] else out;
      var k := Min(|points|, (maxVertices - |joined|) / 2);
      (joined + Strip(points, k, tint), false)
  }

  /** The buffer contents and the first-trail flag after flattening the trails in the given order. */
  function Flattened(trails: seq<seq<TrailPoint>>, maxVertices: nat, tint: Option<Color>): (r: (seq<TrailVertex>, bool))
    ensures |r.0| <= maxVertices
  {
    if trails == [] then ([], true)
    else
      var prev := Flattened(trails[..|trails| - 1], maxVertices, tint);
      TrailStep(prev.0, prev.1, trails[|trails| - 1], maxVertices, tint)
  }

  /** Trails of at least two points: only they are drawn. */
  function Drawn(trails: seq<seq<TrailPoint>>): nat
  {
    if trails == [] then 0
    else Drawn(trails[..|trails| - 1]) + (if |trails[|trails| - 1]| >= 2 then 1 else 0)
  }

  /** Vertices the trails need: two per point plus a two-vertex join per drawn trail. */
  function Needed(trails: seq<seq<TrailPoint>>): nat
  {
    if trails == [] then 0
    else
      var p := trails[|trails| - 1];
      Needed(trails[..|trails| - 1]) + (if |p| >= 2 then 2 * |p| + 2 else 0)
  }

  /**
   * When everything fits, every point of every drawn trail yields its two
   * vertices, and drawn trails after the first are joined by two
   * degenerate vertices; trails of fewer than two points add nothing.
   */
  lemma {:induction false} FlattenedCount(trails: seq<seq<TrailPoint>>, maxVertices: nat, tint: Option<Color>)
    requires Needed(trails) <= maxVertices
    ensures var r := Flattened(trails, maxVertices, tint);
      r.1 == (Drawn(trails) == 0) &&
      |r.0| == if Drawn(trails) == 0 then 0 else Needed(trails) - 2
  {
    if trails != [] {
      var init := trails[..|trails| - 1];
      FlattenedCount(init, maxVertices, tint);
      var prev := Flattened(init, maxVertices, tint);
      var p := trails[|trails| - 1];
      DrawnNeeds(init);
      if |p| >= 2 && Drawn(init) > 0 {
        var joined := prev.0 + [prev.0[|prev.0| - 1], JoinVertex(p, tint)];
        assert |joined| == Needed(init);
        assert (maxVertices - |joined|) / 2 >= |p|;
        assert TrailStep(prev.0, prev.1, p, maxVertices, tint).0 == joined + Strip(p, |p|, tint);
      } else if |p| >= 2 {
        assert (maxVertices - |prev.0|) / 2 >= |p|;
      }
    }
  }

  /** Every drawn trail needs at least six vertices. */
  lemma {:induction false} DrawnNeeds(trails: seq<seq<TrailPoint>>)
    ensures Needed(trails) >= 6 * Drawn(trails)
    ensures Drawn(trails) == 0 <==> Needed(trails) == 0
  {
    if trails != [] {
      DrawnNeeds(trails[..|trails| - 1]);
    }
  }

  /** Every vertex of a strip lies on side +1 or -1, and the two sides of a point alternate. */
  lemma StripSides(points: seq<TrailPoint>, k: nat, tint: Option<Color>, v: nat)
    requires k <= |points| && v < 2 * k
    ensures var s := Strip(points, k, tint);
      s[v].direction == (if v % 2 == 0 then 1.0 else -1.0) && s[v].position == points[v / 2].position
  {
  }

  // ---------------------------------------------------------------------
  // Trail bookkeeping
  // ---------------------------------------------------------------------

  type Trails = map<string, TrailRingBuffer>
  type Misses = map<string, int>

  /** Step 1 for one state: create the trail if new, then append unless it moved less than 0.1. */
  function TrackOne(trails: Trails, miss: Misses, s: InterpolatedAircraftState, maxLength: nat): (Trails, Misses)
  {
    var t := if s.hex in trails then trails[s.hex] else TrailRingBuffer([], maxLength);
    if t.points != [] && DistSq(t.points[|t.points| - 1].position, s.position) < 0.01 then
      (trails[s.hex := t], miss)
    else
      (trails[s.hex := Append(t, TrailPoint(s.position, s.altitude))], miss[s.hex := 0])
  }

  function TrackAll(trails: Trails, miss: Misses, states: seq<InterpolatedAircraftState>, maxLength: nat): (Trails, Misses)
  {
    if states == [] then (trails, miss)
    else
      var prev := TrackAll(trails, miss, states[..|states| - 1], maxLength);
      TrackOne(prev.0, prev.1, states[|states| - 1], maxLength)
  }

  /** The aircraft ids of the states. */
  function HexSet(states: seq<InterpolatedAircraftState>): (r: set<string>)
    ensures forall s :: s in states ==> s.hex in r
  {
    if states == [] then {} else HexSet(states[..|states| - 1]) + {states[|states| - 1].hex}
  }

  /** The miss counter of an absent trail after this update. */
  function NextMiss(miss: Misses, hex: string): int
  {
    (if hex in miss then miss[hex] else 0) + 1
  }

  /** Trails dropped by step 2: absent ones reaching the third consecutive miss. */
  function Dropped(trails: Trails, miss: Misses, present: set<string>): set<string>
  {
    set h | h in trails && h !in present && NextMiss(miss, h) >= MissLimit
  }

  function TrailsAfterMisses(trails: Trails, miss: Misses, present: set<string>): Trails
  {
    trails - Dropped(trails, miss, present)
  }

  function MissesAfterMisses(trails: Trails, miss: Misses, present: set<string>): Misses
  {
    map h | h in miss.Keys + (trails.Keys - present) && h !in Dropped(trails, miss, present) ::
      if h in trails && h !in present then NextMiss(miss, h) else miss[h]
  }

  /** One state touches only its own aircraft's trail and counter. */
  lemma TrackOneFrame(trails: Trails, miss: Misses, s: InterpolatedAircraftState, maxLength: nat)
    ensures var r := TrackOne(trails, miss, s, maxLength);
      r.0.Keys == trails.Keys + {s.hex} && r.1.Keys <= miss.Keys + {s.hex} &&
      r.0[s.hex].maxLength == (if s.hex in trails then trails[s.hex].maxLength else maxLength)
    ensures var r := TrackOne(trails, miss, s, maxLength);
      forall h :: h in trails && h != s.hex ==> r.0[h] == trails[h] && (h in miss ==> h in r.1 && r.1[h] == miss[h])
  {
    var t := if s.hex in trails then trails[s.hex] else TrailRingBuffer([], maxLength);
    var r := TrackOne(trails, miss, s, maxLength);
    var u: TrailRingBuffer :| r.0 == trails[s.hex := u] && u.maxLength == t.maxLength &&
                              (r.1 == miss || r.1 == miss[s.hex := 0]);
  }

  /** Step 1 keeps every old trail and gives every state's aircraft a trail. */
  lemma {:induction false} TrackAllKeys(trails: Trails, miss: Misses, states: seq<InterpolatedAircraftState>, maxLength: nat)
    ensures var r := TrackAll(trails, miss, states, maxLength);
      r.0.Keys == trails.Keys + HexSet(states) && r.1.Keys <= miss.Keys + HexSet(states)
    ensures var r := TrackAll(trails, miss, states, maxLength);
      forall h :: h in trails && h !in HexSet(states) ==> r.0[h] == trails[h] && (h in miss ==> h in r.1 && r.1[h] == miss[h])
  {
    if states != [] {
      var init := states[..|states| - 1];
      var last := states[|states| - 1];
      TrackAllKeys(trails, miss, init, maxLength);
      var prev := TrackAll(trails, miss, init, maxLength);
      TrackOneFrame(prev.0, prev.1, last, maxLength);
      var r := TrackOne(prev.0, prev.1, last, maxLength);
      KeysStep(trails, miss, prev.0, prev.1, r.0, r.1, HexSet(init), last.hex);
    }
  }

  /** The inductive step of `TrackAllKeys`, on the maps alone. */
  lemma KeysStep(trails: Trails, miss: Misses, t1: Trails, m1: Misses, t2: Trails, m2: Misses, seen: set<string>,
                 hex: string)
    requires t1.Keys == trails.Keys + seen && m1.Keys <= miss.Keys + seen
    requires forall h :: h in trails && h !in seen ==> t1[h] == trails[h] && (h in miss ==> h in m1 && m1[h] == miss[h])
    requires t2.Keys == t1.Keys + {hex} && m2.Keys <= m1.Keys + {hex}
    requires forall h :: h in t1 && h != hex ==> t2[h] == t1[h] && (h in m1 ==> h in m2 && m2[h] == m1[h])
    ensures t2.Keys == trails.Keys + (seen + {hex}) && m2.Keys <= miss.Keys + (seen + {hex})
    ensures forall h :: h in trails && h !in seen + {hex} ==> t2[h] == trails[h] && (h in miss ==> h in m2 && m2[h] == miss[h])
  {
  }

  /** A trail created by step 1 takes the current length cap; existing trails keep theirs. */
  lemma {:induction false} TrackAllCaps(trails: Trails, miss: Misses, states: seq<InterpolatedAircraftState>, maxLength: nat)
    ensures var r := TrackAll(trails, miss, states, maxLength);
      forall h :: h in r.0 ==> r.0[h].maxLength == (if h in trails then trails[h].maxLength else maxLength)
  {
    if states != [] {
      var init := states[..|states| - 1];
      TrackAllCaps(trails, miss, init, maxLength);
      TrackAllKeys(trails, miss, init, maxLength);
      var prev := TrackAll(trails, miss, init, maxLength);
      TrackOneFrame(prev.0, prev.1, states[|states| - 1], maxLength);
    }
  }

  /** Step 2 keeps every counter attached to a trail. */
  lemma MissKeysWithinTrails(trails: Trails, miss: Misses, present: set<string>)
    requires miss.Keys <= trails.Keys
    ensures MissesAfterMisses(trails, miss, present).Keys <= TrailsAfterMisses(trails, miss, present).Keys
  {
  }

  /** Aircraft present in this update are never dropped, whatever their miss history. */
  lemma PresentNeverDropped(trails: Trails, miss: Misses, present: set<string>, hex: string)
    requires hex in trails && hex in present
    ensures hex in TrailsAfterMisses(trails, miss, present)
    ensures hex in miss ==> MissesAfterMisses(trails, miss, present)[hex] == miss[hex]
  {
  }

  /** An absent trail is dropped exactly on its third consecutive miss, and otherwise counted. */
  lemma AbsentCounted(trails: Trails, miss: Misses, present: set<string>, hex: string)
    requires hex in trails && hex !in present
    ensures hex !in TrailsAfterMisses(trails, miss, present) <==> NextMiss(miss, hex) >= MissLimit
    ensures hex in TrailsAfterMisses(trails, miss, present) ==>
      hex in MissesAfterMisses(trails, miss, present) && MissesAfterMisses(trails, miss, present)[hex] == NextMiss(miss, hex)
  {
  }

  /**
   * Three updates without an aircraft drop its trail when it was last seen
   * with its counter at 0.
   */
  lemma ThreeMissesDrop(trails: Trails, miss: Misses, hex: string)
    requires hex in trails && hex in miss && miss[hex] == 0
    ensures var t1 := TrailsAfterMisses(trails, miss, {}); var m1 := MissesAfterMisses(trails, miss, {});
      var t2 := TrailsAfterMisses(t1, m1, {}); var m2 := MissesAfterMisses(t1, m1, {});
      hex in t1 && hex in t2 && hex !in TrailsAfterMisses(t2, m2, {})
  {
    var t1 := TrailsAfterMisses(trails, miss, {});
    var m1 := MissesAfterMisses(trails, miss, {});
    assert hex in t1 && m1[hex] == 1;
    var t2 := TrailsAfterMisses(t1, m1, {});
    var m2 := MissesAfterMisses(t1, m1, {});
    assert hex in t2 && m2[hex] == 2;
  }

  // ---------------------------------------------------------------------
  // The manager
  // ---------------------------------------------------------------------

  class TrailManager {
    var maxTrailLength: int
    var trails: Trails
    var missCount: Misses
    var currentHexSet: set<string>
    /** What the last update wrote into its frame's vertex buffer, and how many vertices. */
    var vertices: seq<TrailVertex>
    var vertexCount: int
    /** The order in which the last update enumerated the trails dictionary. */
    ghost var flattenOrder: seq<string>

    ghost predicate Valid()
      reads this
    {
      MinTrailLength <= maxTrailLength <= MaxTrailLength &&
      missCount.Keys <= trails.Keys &&
      vertexCount == |vertices| <= MaxVertices
    }

    constructor ()
      ensures Valid() && maxTrailLength == DefaultMaxTrailLength
      ensures trails == map[] && missCount == map[] && vertexCount == 0
    {
      maxTrailLength := DefaultMaxTrailLength;
      trails := map[];
      missCount := map[];
      currentHexSet := {};
      vertices := [];
      vertexCount := 0;
      flattenOrder := [];
    }

    /** Assigning `maxTrailLength` stores the value clamped to [50, 4000]. */
    method SetMaxTrailLength(v: int)
      requires Valid()
      modifies this`maxTrailLength
      ensures Valid() && maxTrailLength == ClampTrailLength(v)
    {
      maxTrailLength := if v < MinTrailLength then MinTrailLength else if v > MaxTrailLength then MaxTrailLength else v;
    }

    /** `update(states:bufferIndex:tintColor:)` for one frame buffer. */
    method Update(states: seq<InterpolatedAircraftState>, tint: Option<Color>)
      requires Valid()
      modifies this
      ensures Valid() && maxTrailLength == old(maxTrailLength)
      ensures currentHexSet == HexSet(states)
      ensures var tracked := TrackAll(old(trails), old(missCount), states, old(maxTrailLength));
        trails == TrailsAfterMisses(tracked.0, tracked.1, HexSet(states)) &&
        missCount == MissesAfterMisses(tracked.0, tracked.1, HexSet(states))
      ensures Enumerates(flattenOrder, trails.Keys)
      ensures vertices == Flattened(TrailPoints(trails, flattenOrder), MaxVertices, tint).0
    {
      Track(states);
      Flatten(tint);
    }

    /** Steps 1 and 2 of `update`: the present set, the appended points and the miss counters. */
    method Track(states: seq<InterpolatedAircraftState>)
      requires Valid()
      modifies this`trails, this`missCount, this`currentHexSet
      ensures Valid()
      ensures currentHexSet == HexSet(states)
      ensures var tracked := TrackAll(old(trails), old(missCount), states, maxTrailLength);
        trails == TrailsAfterMisses(tracked.0, tracked.1, HexSet(states)) &&
        missCount == MissesAfterMisses(tracked.0, tracked.1, HexSet(states))
    {
      var present := HexSet(states);
      var kept, misses := TrackAndCount(trails, missCount, states, maxTrailLength);
      currentHexSet, trails, missCount := present, kept, misses;
    }

    /** Step 3 of `update`: the trails flattened into this frame's vertex buffer. */
    method Flatten(tint: Option<Color>)
      requires Valid()
      modifies this`vertices, this`vertexCount, this`flattenOrder
      ensures Valid()
      ensures Enumerates(flattenOrder, trails.Keys)
      ensures vertices == Flattened(TrailPoints(trails, flattenOrder), MaxVertices, tint).0
    {
      ghost var order;
      var out;
      out, order := FlattenAll(trails, tint);
      vertices, vertexCount, flattenOrder := out, |out|, order;
    }

    /** Steps 1 and 2 of `update`: every counter stays attached to a trail. */
    static method TrackAndCount(trails0: Trails, miss0: Misses, states: seq<InterpolatedAircraftState>, maxLength: nat)
      returns (trails: Trails, miss: Misses)
      requires miss0.Keys <= trails0.Keys
      ensures var tracked := TrackAll(trails0, miss0, states, maxLength);
        trails == TrailsAfterMisses(tracked.0, tracked.1, HexSet(states)) &&
        miss == MissesAfterMisses(tracked.0, tracked.1, HexSet(states))
      ensures miss.Keys <= trails.Keys
    {
      var present := HexSet(states);
      var tracked, counts := AppendPoints(trails0, miss0, states, maxLength);
      assert counts.Keys <= tracked.Keys by {
        TrackAllKeys(trails0, miss0, states, maxLength);
      }
      trails, miss := CountMisses(tracked, counts, present);
      MissKeysWithinTrails(tracked, counts, present);
    }

    /** Step 1 of `update`. */
    static method AppendPoints(trails0: Trails, miss0: Misses, states: seq<InterpolatedAircraftState>, maxLength: nat)
      returns (trails: Trails, miss: Misses)
      ensures trails == TrackAll(trails0, miss0, states, maxLength).0
      ensures miss == TrackAll(trails0, miss0, states, maxLength).1
    {
      trails, miss := trails0, miss0;
      var i := 0;
      while i < |states|
        invariant 0 <= i <= |states|
        invariant trails == TrackAll(trails0, miss0, states[..i], maxLength).0
        invariant miss == TrackAll(trails0, miss0, states[..i], maxLength).1
      {
        assert states[..i + 1][..i] == states[..i];
        assert TrackAll(trails0, miss0, states[..i + 1], maxLength) == TrackOne(trails, miss, states[i], maxLength) by {
          assert TrackAll(trails0, miss0, states[..i], maxLength) == (trails, miss);
        }
        trails, miss := TrackState(trails, miss, states[i], maxLength);
        i := i + 1;
      }
      assert states[..i] == states;
    }

    /** The body of step 1's loop for one state. */
    static method TrackState(trails0: Trails, miss0: Misses, s: InterpolatedAircraftState, maxLength: nat)
      returns (trails: Trails, miss: Misses)
      ensures trails == TrackOne(trails0, miss0, s, maxLength).0
      ensures miss == TrackOne(trails0, miss0, s, maxLength).1
    {
      // A missing trail is created empty with the current length cap.
      var t := if s.hex in trails0 then trails0[s.hex] else TrailRingBuffer([], maxLength);
      trails, miss := trails0[s.hex := t], miss0;
      if t.points != [] && DistSq(t.points[|t.points| - 1].position, s.position) < 0.01 {
        return;
      }
      trails := trails0[s.hex := Append(t, TrailPoint(s.position, s.altitude))];
      miss := miss[s.hex := 0];
    }

    /** Step 2 of `update`. */
    static method CountMisses(trails0: Trails, miss0: Misses, present: set<string>)
      returns (trails: Trails, miss: Misses)
      ensures trails == TrailsAfterMisses(trails0, miss0, present)
      ensures miss == MissesAfterMisses(trails0, miss0, present)
    {
      var counted, toRemove := CountPass(trails0, miss0, present);
      trails, miss := RemovePass(trails0, counted, toRemove);
      assert miss.Keys == MissesAfterMisses(trails0, miss0, present).Keys;
    }

    /** The counting loop of step 2: bump every absent trail's counter and collect those to drop. */
    static method CountPass(trails0: Trails, miss0: Misses, present: set<string>)
      returns (miss: Misses, toRemove: set<string>)
      ensures toRemove == Dropped(trails0, miss0, present)
      ensures miss.Keys == miss0.Keys + (trails0.Keys - present)
      ensures forall h :: h in miss ==> miss[h] == (if h in trails0 && h !in present then NextMiss(miss0, h) else miss0[h])
    {
      miss := miss0;
      toRemove := {};
      var keys := trails0.Keys;
      while keys != {}
        invariant keys <= trails0.Keys
        invariant miss.Keys == miss0.Keys + ((trails0.Keys - keys) - present)
        invariant forall h :: h in miss0 ==> h in miss
        invariant forall h :: h in miss ==> miss[h] == (if h in trails0 && h !in present && h !in keys then NextMiss(miss0, h) else miss0[h])
        invariant toRemove == set h | h in trails0 && h !in keys && h !in present && NextMiss(miss0, h) >= MissLimit
        decreases keys
      {
        var hex :| hex in keys;
        if hex !in present {
          var count := (if hex in miss then miss[hex] else 0) + 1;
          miss := miss[hex := count];
          if count >= MissLimit {
            toRemove := toRemove + {hex};
          }
        }
        keys := keys - {hex};
      }
    }

    /** The removal loop of step 2. */
    static method RemovePass(trails0: Trails, miss0: Misses, toRemove: set<string>)
      returns (trails: Trails, miss: Misses)
      ensures trails == trails0 - toRemove && miss == miss0 - toRemove
    {
      trails, miss := trails0, miss0;
      var pending := toRemove;
      while pending != {}
        invariant pending <= toRemove
        invariant trails == trails0 - (toRemove - pending)
        invariant miss == miss0 - (toRemove - pending)
        decreases pending
      {
        var hex :| hex in pending;
        trails := trails - {hex};
        miss := miss - {hex};
        pending := pending - {hex};
      }
    }

    /** Step 3 of `update`: walk the dictionary in some order and flatten each trail. */
    static method FlattenAll(trails: Trails, tint: Option<Color>)
      returns (out: seq<TrailVertex>, ghost order: seq<string>)
      ensures Enumerates(order, trails.Keys)
      ensures forall h :: h in order ==> h in trails
      ensures out == Flattened(TrailPoints(trails, order), MaxVertices, tint).0
      ensures |out| <= MaxVertices
    {
      out := [];
      var isFirst := true;
      order := [];
      var keys := trails.Keys;
      while keys != {}
        invariant keys <= trails.Keys
        invariant (forall h :: h in order ==> h in trails) && (set h | h in order) == trails.Keys - keys
        invariant NoDuplicates(order)
        invariant out == Flattened(TrailPoints(trails, order), MaxVertices, tint).0
        invariant isFirst == Flattened(TrailPoints(trails, order), MaxVertices, tint).1
        decreases keys
      {
        var hex :| hex in keys;
        OrderSnoc(trails, order, hex, keys);
        FlattenSnoc(trails, order, hex, tint);
        order := order + [hex];
        out, isFirst := EmitTrail(out, isFirst, trails[hex].points, MaxVertices, tint);
        keys := keys - {hex};
      }
    }

    /** The body of the flattening loop for one trail. */
    static method EmitTrail(out0: seq<TrailVertex>, first0: bool, points: seq<TrailPoint>, maxVertices: nat,
                            tint: Option<Color>)
      returns (out: seq<TrailVertex>, first: bool)
      requires |out0| <= maxVertices
      ensures (out, first) == TrailStep(out0, first0, points, maxVertices, tint)
    {
      out, first := out0, first0;
      if |points| < 2 {
        return;
      }
      if !first && |out| > 0 && |out| + 4 + |points| * 2 <= maxVertices {
        out := out + [out[|out| - 1], JoinVertex(points, tint)];
      }
      first := false;
      out := EmitPoints(out, points, maxVertices, tint);
    }

    /** The per-point loop: two vertices per point while they fit. */
    static method EmitPoints(joined: seq<TrailVertex>, points: seq<TrailPoint>, maxVertices: nat, tint: Option<Color>)
      returns (out: seq<TrailVertex>)
      requires |joined| <= maxVertices
      ensures out == joined + Strip(points, Min(|points|, (maxVertices - |joined|) / 2), tint)
    {
      out := joined;
      var i := 0;
      while i < |points|
        invariant 0 <= i <= |points| && |joined| <= maxVertices
        invariant out == joined + Strip(points, i, tint)
        invariant i <= Min(|points|, (maxVertices - |joined|) / 2)
      {
        if |out| + 2 > maxVertices {
          break;
        }
        var c := PointColor(points, i, tint);
        var prev := if i > 0 then points[i - 1].position else points[i].position;
        var next := if i < |points| - 1 then points[i + 1].position else points[i].position;
        out := out + [TrailVertex(points[i].position, 1.0, c, prev, next),
                      TrailVertex(points[i].position, -1.0, c, prev, next)];
        StripSnoc(points, i, tint);
        i := i + 1;
      }
      assert i == Min(|points|, (maxVertices - |joined|) / 2);
    }
  }

  lemma StripSnoc(points: seq<TrailPoint>, i: nat, tint: Option<Color>)
    requires i < |points|
    ensures var c := PointColor(points, i, tint);
      var prev := if i > 0 then points[i - 1].position else points[i].position;
      var next := if i < |points| - 1 then points[i + 1].position else points[i].position;
      Strip(points, i + 1, tint) == Strip(points, i, tint) +
        [TrailVertex(points[i].position, 1.0, c, prev, next), TrailVertex(points[i].position, -1.0, c, prev, next)]
  {
    assert StripVertex(points, 2 * i, tint).direction == 1.0;
    assert StripVertex(points, 2 * i + 1, tint).direction == -1.0;
  }

  /** Enumerating one more key keeps the order free of repeats and within the dictionary. */
  lemma OrderSnoc(trails: Trails, before: seq<string>, hex: string, keys: set<string>)
    requires keys <= trails.Keys && hex in keys
    requires (forall h :: h in before ==> h in trails) && (set h | h in before) == trails.Keys - keys
    requires NoDuplicates(before)
    ensures var order := before + [hex];
      (forall h :: h in order ==> h in trails) && (set h | h in order) == trails.Keys - (keys - {hex}) &&
      NoDuplicates(order)
  {
    var order := before + [hex];
    assert (set h | h in order) == (set h | h in before) + {hex};
  }

  /** Flattening one more trail is one more step of the loop. */
  lemma FlattenSnoc(trails: Trails, before: seq<string>, hex: string, tint: Option<Color>)
    requires (forall h :: h in before ==> h in trails) && hex in trails
    ensures var prev := Flattened(TrailPoints(trails, before), MaxVertices, tint);
      var step := TrailStep(prev.0, prev.1, trails[hex].points, MaxVertices, tint);
      Flattened(TrailPoints(trails, before + [hex]), MaxVertices, tint).0 == step.0 &&
      Flattened(TrailPoints(trails, before + [hex]), MaxVertices, tint).1 == step.1
  {
    var order := before + [hex];
    assert order[..|order| - 1] == before;
    assert TrailPoints(trails, order)[..|order| - 1] == TrailPoints(trails, before);
  }

  predicate NoDuplicates(s: seq<string>)
  {
    forall i, j :: 0 <= i < j < |s| ==> s[i] != s[j]
  }

  /** `order` lists every key exactly once. */
  predicate Enumerates(order: seq<string>, keys: set<string>)
  {
    NoDuplicates(order) && (set h | h in order) == keys
  }

  /** The points of the trails in the given order. */
  function TrailPoints(trails: Trails, order: seq<string>): (r: seq<seq<TrailPoint>>)
    requires forall h :: h in order ==> h in trails
    ensures |r| == |order|
  {
    if order == [] then []
    else TrailPoints(trails, order[..|order| - 1]) + [trails[order[|order| - 1]].points]
  }
}
