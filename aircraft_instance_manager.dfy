/**
 * Per-frame instance data for aircraft rendering: the states are capped at
 * 1024, grouped by category for instanced drawing, and turned into instance,
 * glow and spinning-part records while the per-aircraft light phases and
 * rotor angles advance.
 */
module Instances {
  import opened Wrappers
  import opened Geometry
  import opened AircraftCategory
  import opened RenderState
  import opened Sorting

  const MaxInstances: nat := 1024

  /** `sortOrder`: the batching order of the categories. */
  function SortOrder(c: Category): (n: nat)
    ensures n < 6
  {
    match c
    case Jet => 0
    case Widebody => 1
    case Helicopter => 2
    case Small => 3
    case Military => 4
    case Regional => 5
  }

  /** Every one of 0..5 is the order of exactly one category. */
  lemma SortOrderBijective(a: Category, b: Category, n: nat)
    ensures SortOrder(a) == SortOrder(b) ==> a == b
    ensures n < 6 ==> exists c :: SortOrder(c) == n
  {
    if n < 6 {
      var all := [Jet, Widebody, Helicopter, Small, Military, Regional];
      assert SortOrder(all[n]) == n;
    }
  }

  function Key(s: InterpolatedAircraftState): real
  {
    SortOrder(s.category) as real
  }

  datatype CategoryRange = CategoryRange(offset: nat, count: nat)

  /** The state of the range-finding loop: ranges closed so far, the open run's category and start. */
  datatype Scan = Scan(ranges: map<Category, CategoryRange>, current: Option<Category>, rangeStart: nat)

  /** The range-finding loop after the states `s`: a new run closes the previous one. */
  function ScanRuns(s: seq<InterpolatedAircraftState>): (sc: Scan)
    ensures sc.rangeStart <= |s| && (s != [] ==> sc.rangeStart < |s|)
  {
    if s == [] then Scan(map[], None, 0)
    else
      var prev := ScanRuns(s[..|s| - 1]);
      var x := s[|s| - 1];
      if prev.current == Some(x.category) then prev
      else
        var closed := if prev.current.Some?
          then prev.ranges[prev.current.value := CategoryRange(prev.rangeStart, |s| - 1 - prev.rangeStart)]
          else prev.ranges;
        Scan(closed, Some(x.category), |s| - 1)
  }

  /** `categoryRanges` after the loop and the closing of the last run. */
  function Ranges(s: seq<InterpolatedAircraftState>): map<Category, CategoryRange>
  {
    var sc := ScanRuns(s);
    if sc.current.Some? then sc.ranges[sc.current.value := CategoryRange(sc.rangeStart, |s| - sc.rangeStart)]
    else sc.ranges
  }

  function Categories(s: seq<InterpolatedAircraftState>): set<Category>
  {
    set i | 0 <= i < |s| :: s[i].category
  }

  /** `r` covers exactly the positions of category `c` in `s`, and at least one. */
  ghost predicate Exact(s: seq<InterpolatedAircraftState>, c: Category, r: CategoryRange)
  {
    r.count > 0 && r.offset + r.count <= |s|
    && forall i :: 0 <= i < |s| ==> (r.offset <= i < r.offset + r.count <==> s[i].category == c)
  }

  ghost predicate ScanInv(s: seq<InterpolatedAircraftState>, sc: Scan)
  {
    sc.rangeStart <= |s|
    && (s == [] ==> sc.ranges == map[] && sc.current.None?)
    && (s != [] ==>
         (sc.current == Some(s[|s| - 1].category) && sc.rangeStart < |s|
          && forall i :: 0 <= i < |s| ==> (sc.rangeStart <= i <==> s[i].category == sc.current.value)))
    && sc.ranges.Keys == Categories(s[..sc.rangeStart])
    && forall c :: c in sc.ranges ==> Exact(s, c, sc.ranges[c]) && sc.ranges[c].offset + sc.ranges[c].count <= sc.rangeStart
  }

  /** The categories of `s` split at a run boundary. */
  lemma CategoriesSplit(s: seq<InterpolatedAircraftState>, start: nat, c: Category)
    requires start < |s| && forall i :: start <= i < |s| ==> s[i].category == c
    ensures Categories(s) == Categories(s[..start]) + {c}
  {
    assert s[start].category == c;
    forall d | d in Categories(s)
      ensures d in Categories(s[..start]) + {c}
    {
      var i :| 0 <= i < |s| && s[i].category == d;
      if i < start { assert s[..start][i] == s[i]; }
    }
    forall d | d in Categories(s[..start])
      ensures d in Categories(s)
    {
      var i :| 0 <= i < start && s[..start][i].category == d;
      assert s[i].category == d;
    }
  }

  /** On a sequence sorted by category order, a category that differs from the last one has not occurred yet. */
  lemma NewCategoryIsNew(s: seq<InterpolatedAircraftState>, x: InterpolatedAircraftState)
    requires s != [] && SortedBy(s + [x], Key) && x.category != s[|s| - 1].category
    ensures forall i :: 0 <= i < |s| ==> s[i].category != x.category
  {
    var t := s + [x];
    SortOrderBijective(x.category, s[|s| - 1].category, 0);
    assert Key(t[|s| - 1]) <= Key(t[|s|]);
    forall i | 0 <= i < |s|
      ensures s[i].category != x.category
    {
      assert Key(t[i]) <= Key(t[|s| - 1]);
    }
  }

  /** A state of the open run's category extends the run. */
  lemma ScanSame(p: seq<InterpolatedAircraftState>, x: InterpolatedAircraftState, sc: Scan)
    requires ScanInv(p, sc) && sc.current == Some(x.category)
    ensures ScanInv(p + [x], sc)
  {
    var s := p + [x];
    assert s[..sc.rangeStart] == p[..sc.rangeStart];
    forall c | c in sc.ranges
      ensures Exact(s, c, sc.ranges[c])
    {
      var r := sc.ranges[c];
      assert c in Categories(p[..sc.rangeStart]);
      var k :| 0 <= k < sc.rangeStart && p[..sc.rangeStart][k].category == c;
      assert p[k].category == c;
    }
  }

  /** A range exact for a category stays exact when a state of another category is appended. */
  lemma ExactExtend(p: seq<InterpolatedAircraftState>, x: InterpolatedAircraftState, c: Category, r: CategoryRange)
    requires Exact(p, c, r) && x.category != c
    ensures Exact(p + [x], c, r)
  {
    var s := p + [x];
    forall i | 0 <= i < |s|
      ensures r.offset <= i < r.offset + r.count <==> s[i].category == c
    {
      if i < |p| { assert s[i] == p[i]; }
    }
  }

  /** Closing the open run at the end of `p` gives an exact range for its category. */
  lemma CurrentRunExact(p: seq<InterpolatedAircraftState>, x: InterpolatedAircraftState, prev: Scan)
    requires ScanInv(p, prev) && p != [] && prev.current != Some(x.category)
    ensures Exact(p + [x], prev.current.value, CategoryRange(prev.rangeStart, |p| - prev.rangeStart))
  {
    var s := p + [x];
    var cur := prev.current.value;
    forall i | 0 <= i < |s|
      ensures prev.rangeStart <= i < |p| <==> s[i].category == cur
    {
      if i < |p| { assert s[i] == p[i]; }
    }
  }

  /** A state of a new category closes the open run and opens its own. */
  lemma ScanNew(p: seq<InterpolatedAircraftState>, x: InterpolatedAircraftState, prev: Scan)
    requires ScanInv(p, prev) && prev.current != Some(x.category) && SortedBy(p + [x], Key)
    ensures var closed := if prev.current.Some?
          then prev.ranges[prev.current.value := CategoryRange(prev.rangeStart, |p| - prev.rangeStart)]
          else prev.ranges;
      ScanInv(p + [x], Scan(closed, Some(x.category), |p|))
  {
    var s := p + [x];
    if p == [] {
      assert s[..|p|] == [];
    } else {
      NewCategoryIsNew(p, x);
      var cur := prev.current.value;
      var closed := prev.ranges[cur := CategoryRange(prev.rangeStart, |p| - prev.rangeStart)];
      CategoriesSplit(p, prev.rangeStart, cur);
      assert s[..|p|] == p;
      CurrentRunExact(p, x, prev);
      forall c | c in closed && c != cur
        ensures Exact(s, c, closed[c])
      {
        var r := closed[c];
        assert p[r.offset].category == c;
        ExactExtend(p, x, c, r);
      }
    }
  }

  lemma {:induction false} ScanRunsInv(s: seq<InterpolatedAircraftState>)
    requires SortedBy(s, Key)
    ensures ScanInv(s, ScanRuns(s))
  {
    if s != [] {
      var p := s[..|s| - 1];
      var x := s[|s| - 1];
      assert s == p + [x];
      assert SortedBy(p, Key);
      ScanRunsInv(p);
      var prev := ScanRuns(p);
      if prev.current == Some(x.category) {
        assert ScanRuns(s) == prev;
        ScanSame(p, x, prev);
      } else {
        var closed := if prev.current.Some?
          then prev.ranges[prev.current.value := CategoryRange(prev.rangeStart, |p| - prev.rangeStart)]
          else prev.ranges;
        assert ScanRuns(s) == Scan(closed, Some(x.category), |p|);
        ScanNew(p, x, prev);
      }
    }
  }

  /**
   * On states sorted by category order, `categoryRanges` has an entry for
   * exactly the present categories, each entry covers exactly that
   * category's positions, and the entries follow the category order.
   */
  lemma RangesPartition(s: seq<InterpolatedAircraftState>)
    requires SortedBy(s, Key)
    ensures Ranges(s).Keys == Categories(s)
    ensures forall c :: c in Ranges(s) ==> Exact(s, c, Ranges(s)[c])
    ensures forall a, b :: a in Ranges(s) && b in Ranges(s) && SortOrder(a) < SortOrder(b) ==>
      Ranges(s)[a].offset + Ranges(s)[a].count <= Ranges(s)[b].offset
  {
    RangesExact(s);
    var r := Ranges(s);
    forall a, b | a in r && b in r && SortOrder(a) < SortOrder(b)
      ensures r[a].offset + r[a].count <= r[b].offset
    {
      RangesOrdered(s, a, b, r[a], r[b]);
    }
  }

  /** The closed ranges cover exactly the present categories, each exactly. */
  lemma RangesExact(s: seq<InterpolatedAircraftState>)
    requires SortedBy(s, Key)
    ensures Ranges(s).Keys == Categories(s)
    ensures forall c :: c in Ranges(s) ==> Exact(s, c, Ranges(s)[c])
  {
    ScanRunsInv(s);
    var sc := ScanRuns(s);
    if sc.current.Some? {
      CategoriesSplit(s, sc.rangeStart, sc.current.value);
    } else {
      assert s[..sc.rangeStart] == s;
    }
  }

  /** Two exact ranges on states sorted by category order follow that order. */
  lemma RangesOrdered(s: seq<InterpolatedAircraftState>, a: Category, b: Category, ra: CategoryRange, rb: CategoryRange)
    requires SortedBy(s, Key) && Exact(s, a, ra) && Exact(s, b, rb) && SortOrder(a) < SortOrder(b)
    ensures ra.offset + ra.count <= rb.offset
  {
    var last := ra.offset + ra.count - 1;
    assert s[rb.offset].category == b && s[last].category == a;
    assert Key(s[last]) < Key(s[rb.offset]);
  }

  /** The range-finding loop, proved against `Ranges`. */
  method ComputeRanges(sorted: seq<InterpolatedAircraftState>) returns (ranges: map<Category, CategoryRange>)
    ensures ranges == Ranges(sorted)
  {
    ranges := map[];
    var currentCategory: Option<Category> := None;
    var rangeStart := 0;
    for i := 0 to |sorted|
      invariant Scan(ranges, currentCategory, rangeStart) == ScanRuns(sorted[..i])
    {
      assert sorted[..i + 1][..i] == sorted[..i];
      var state := sorted[i];
      if currentCategory != Some(state.category) {
        if currentCategory.Some? {
          ranges := ranges[currentCategory.value := CategoryRange(rangeStart, i - rangeStart)];
        }
        currentCategory := Some(state.category);
        rangeStart := i;
      }
    }
    assert sorted[..|sorted|] == sorted;
    if currentCategory.Some? {
      ranges := ranges[currentCategory.value := CategoryRange(rangeStart, |sorted| - rangeStart)];
    }
  }

  /** The categories after sorting are the categories of the input. */
  lemma SortedCategories(s: seq<InterpolatedAircraftState>)
    ensures Categories(SortBy(s, Key)) == Categories(s)
  {
    var t := SortBy(s, Key);
    assert multiset(t) == multiset(s);
    forall c | c in Categories(t)
      ensures c in Categories(s)
    {
      var i :| 0 <= i < |t| && t[i].category == c;
      assert t[i] in multiset(s);
      var j :| 0 <= j < |s| && s[j] == t[i];
    }
    forall c | c in Categories(s)
      ensures c in Categories(t)
    {
      var i :| 0 <= i < |s| && s[i].category == c;
      assert s[i] in multiset(t);
      var j :| 0 <= j < |t| && t[j] == s[i];
    }
  }

  /** Green below 5000 ft, then green→yellow, yellow→orange, orange→pink up to 45000 ft. */
  function AltitudeColor(altitude: real): Color
  {
    if altitude < 5000.0 then Color(0.2, 0.8, 0.2, 1.0)
    else if altitude < 15000.0 then
      var t := (altitude - 5000.0) / 10000.0;
      Color(0.2 + 0.8 * t, 0.8, 0.2 * (1.0 - t), 1.0)
    else if altitude < 30000.0 then
      var t := (altitude - 15000.0) / 15000.0;
      Color(1.0, 0.8 - 0.3 * t, 0.0, 1.0)
    else
      var t := if (altitude - 30000.0) / 15000.0 < 1.0 then (altitude - 30000.0) / 15000.0 else 1.0;
      Color(1.0, 0.5 - 0.1 * t, 0.3 * t, 1.0)
  }

  /**
   * Along the gradient red never falls and green never rises with altitude,
   * every component stays in [0, 1] with alpha 1, and it is constant from
   * 45000 ft up.
   */
  lemma AltitudeColorMonotonic(low: real, high: real)
    requires low <= high
    ensures AltitudeColor(low).r <= AltitudeColor(high).r && AltitudeColor(low).g >= AltitudeColor(high).g
    ensures var c := AltitudeColor(low); 0.0 <= c.r <= 1.0 && 0.0 <= c.g <= 1.0 && 0.0 <= c.b <= 1.0 && c.a == 1.0
    ensures low >= 45000.0 ==> AltitudeColor(low) == AltitudeColor(high) == Color(1.0, 0.4, 0.3, 1.0)
  {
  }

  /** Radians per second of rotor or propeller turn. */
  function RotorSpeed(c: Category): real
  {
    match c
    case Helicopter => 0.7 * 2.0 * Pi
    case Small => 0.6 * 2.0 * Pi
    case _ => 0.0
  }

  /** How far a part turning at `speed` turns in `deltaTime`. */
  function Turn(deltaTime: real, speed: real): real
  {
    deltaTime * speed
  }

  /** An aircraft instance: the model matrix is kept as its translation and heading. */
  datatype Instance = Instance(position: Vec3, heading: real, color: Color, lightPhase: real, rotorAngle: real, flags: int)

  datatype Glow = Glow(position: Vec3, color: Color)

  /** A helicopter rotor turns about the vertical axis at the aircraft's position; a propeller is turned to the heading first. */
  datatype SpinKind = Rotor | Propeller(heading: real)

  datatype SpinPart = SpinPart(position: Vec3, kind: SpinKind, rotorAngle: real, color: Color)

  /** The buffers and animation state after populating from a prefix of the sorted states. */
  datatype Buffers = Buffers(
    phases: map<string, real>, angles: map<string, real>,
    instances: seq<Instance>, glows: seq<Glow>, spins: seq<SpinPart>,
    helicopters: nat, props: nat)

  function Lookup(m: map<string, real>, k: string, default: real): real
  {
    if k in m then m[k] else default
  }

  /**
   * One iteration of the population loop; `seed` stands for the random
   * initial light phase of an aircraft seen for the first time.
   */
  function Place(b: Buffers, x: InterpolatedAircraftState, deltaTime: real, selectedHex: Option<string>,
                 tint: Option<Color>, seed: string -> real): Buffers
  {
    var phase := Lookup(b.phases, x.hex, seed(x.hex)) + deltaTime * 5.0;
    var angle := Lookup(b.angles, x.hex, 0.0) + Turn(deltaTime, RotorSpeed(x.category));
    var color := if tint.Some? then tint.value else AltitudeColor(x.altitude);
    var flags := if selectedHex == Some(x.hex) then 1 else 0;
    var b1 := b.(phases := b.phases[x.hex := phase], angles := b.angles[x.hex := angle],
                 instances := b.instances + [Instance(x.position, x.heading, color, phase, angle, flags)],
                 glows := b.glows + [Glow(Vec3(x.position.x, x.position.y + 1.0, x.position.z), color)]);
    if x.category == Helicopter then
      b1.(spins := b1.spins + [SpinPart(x.position, Rotor, angle, Color(0.3, 0.3, 0.3, 1.0))], helicopters := b1.helicopters + 1)
    else if x.category == Small then
      b1.(spins := b1.spins + [SpinPart(x.position, Propeller(x.heading), angle, Color(0.2, 0.2, 0.2, 1.0))], props := b1.props + 1)
    else b1
  }

  /** `Place` field by field. */
  lemma PlaceFields(b: Buffers, x: InterpolatedAircraftState, deltaTime: real, selectedHex: Option<string>,
                    tint: Option<Color>, seed: string -> real)
    ensures var r := Place(b, x, deltaTime, selectedHex, tint, seed);
      var phase := Lookup(b.phases, x.hex, seed(x.hex)) + deltaTime * 5.0;
      var angle := Lookup(b.angles, x.hex, 0.0) + Turn(deltaTime, RotorSpeed(x.category));
      var color := if tint.Some? then tint.value else AltitudeColor(x.altitude);
      r.phases == b.phases[x.hex := phase] && r.angles == b.angles[x.hex := angle]
      && r.instances == b.instances + [Instance(x.position, x.heading, color, phase, angle, if selectedHex == Some(x.hex) then 1 else 0)]
      && r.glows == b.glows + [Glow(Vec3(x.position.x, x.position.y + 1.0, x.position.z), color)]
      && (x.category == Helicopter ==>
           r.spins == b.spins + [SpinPart(x.position, Rotor, angle, Color(0.3, 0.3, 0.3, 1.0))]
           && r.helicopters == b.helicopters + 1 && r.props == b.props)
      && (x.category == Small ==>
           r.spins == b.spins + [SpinPart(x.position, Propeller(x.heading), angle, Color(0.2, 0.2, 0.2, 1.0))]
           && r.helicopters == b.helicopters && r.props == b.props + 1)
      && (x.category != Helicopter && x.category != Small ==>
           r.spins == b.spins && r.helicopters == b.helicopters && r.props == b.props)
  {
  }

  /** The population loop over the sorted states. */
  function Populate(s: seq<InterpolatedAircraftState>, phases: map<string, real>, angles: map<string, real>,
                    deltaTime: real, selectedHex: Option<string>, tint: Option<Color>, seed: string -> real): Buffers
  {
    if s == [] then Buffers(phases, angles, [], [], [], 0, 0)
    else Place(Populate(s[..|s| - 1], phases, angles, deltaTime, selectedHex, tint, seed), s[|s| - 1], deltaTime, selectedHex, tint, seed)
  }

  function CountOf(s: seq<InterpolatedAircraftState>, c: Category): nat
  {
    if s == [] then 0 else CountOf(s[..|s| - 1], c) + (if s[|s| - 1].category == c then 1 else 0)
  }

  /** Total rotor turn the aircraft `hex` gets from its entries among the states `s`. */
  function TurnSum(s: seq<InterpolatedAircraftState>, hex: string, deltaTime: real): real
  {
    if s == [] then 0.0
    else
      var last := if s[|s| - 1].hex == hex then Turn(deltaTime, RotorSpeed(s[|s| - 1].category)) else 0.0;
      TurnSum(s[..|s| - 1], hex, deltaTime) + last
  }

  /**
   * One instance and one glow per state, in order: flagged iff it is the
   * selected aircraft, coloured by the tint when there is one and by altitude
   * otherwise; one spinning part per helicopter and small aircraft.
   */
  lemma {:induction false} PopulateShape(s: seq<InterpolatedAircraftState>, phases: map<string, real>, angles: map<string, real>,
                                         deltaTime: real, selectedHex: Option<string>, tint: Option<Color>, seed: string -> real)
    ensures var b := Populate(s, phases, angles, deltaTime, selectedHex, tint, seed);
      |b.instances| == |b.glows| == |s|
      && b.helicopters == CountOf(s, Helicopter) && b.props == CountOf(s, Small)
      && |b.spins| == b.helicopters + b.props
      && forall i :: 0 <= i < |s| ==>
        (b.instances[i].flags == (if selectedHex == Some(s[i].hex) then 1 else 0)
         && b.instances[i].color == (if tint.Some? then tint.value else AltitudeColor(s[i].altitude))
         && b.instances[i].position == s[i].position && b.glows[i].color == b.instances[i].color)
  {
    if s != [] {
      var p := s[..|s| - 1];
      PopulateShape(p, phases, angles, deltaTime, selectedHex, tint, seed);
      var b := Populate(s, phases, angles, deltaTime, selectedHex, tint, seed);
      var bp := Populate(p, phases, angles, deltaTime, selectedHex, tint, seed);
      forall i | 0 <= i < |s|
        ensures b.instances[i].flags == (if selectedHex == Some(s[i].hex) then 1 else 0)
        ensures b.instances[i].color == (if tint.Some? then tint.value else AltitudeColor(s[i].altitude))
        ensures b.instances[i].position == s[i].position && b.glows[i].color == b.instances[i].color
      {
        if i < |p| {
          assert b.instances[i] == bp.instances[i] && b.glows[i] == bp.glows[i] && s[i] == p[i];
        }
      }
    }
  }

  /** A rotor angle persists between frames and advances by the elapsed time times its category's speed. */
  lemma {:induction false} RotorAnglesAdvance(s: seq<InterpolatedAircraftState>, phases: map<string, real>, angles: map<string, real>,
                                              deltaTime: real, selectedHex: Option<string>, tint: Option<Color>, seed: string -> real,
                                              hex: string)
    ensures Lookup(Populate(s, phases, angles, deltaTime, selectedHex, tint, seed).angles, hex, 0.0)
      == Lookup(angles, hex, 0.0) + TurnSum(s, hex, deltaTime)
  {
    if s != [] {
      var p := s[..|s| - 1];
      RotorAnglesAdvance(p, phases, angles, deltaTime, selectedHex, tint, seed, hex);
      var bp := Populate(p, phases, angles, deltaTime, selectedHex, tint, seed);
      var b := Populate(s, phases, angles, deltaTime, selectedHex, tint, seed);
      var x := s[|s| - 1];
      PlaceFields(bp, x, deltaTime, selectedHex, tint, seed);
    }
  }

  function Hexes(s: seq<InterpolatedAircraftState>): set<string>
  {
    set i | 0 <= i < |s| :: s[i].hex
  }

  /** The hexes of `s` are those of all but its last state, plus the last state's. */
  lemma HexesSnoc(s: seq<InterpolatedAircraftState>)
    requires s != []
    ensures Hexes(s) == Hexes(s[..|s| - 1]) + {s[|s| - 1].hex}
  {
    var p := s[..|s| - 1];
    forall h | h in Hexes(s)
      ensures h in Hexes(p) + {s[|s| - 1].hex}
    {
      var i :| 0 <= i < |s| && s[i].hex == h;
      if i < |p| { assert p[i].hex == h; }
    }
    forall h | h in Hexes(p)
      ensures h in Hexes(s)
    {
      var i :| 0 <= i < |p| && p[i].hex == h;
      assert s[i].hex == h;
    }
  }

  /** Angles are kept for every aircraft ever seen; none is dropped. */
  lemma {:induction false} RotorAnglesKept(s: seq<InterpolatedAircraftState>, phases: map<string, real>, angles: map<string, real>,
                                           deltaTime: real, selectedHex: Option<string>, tint: Option<Color>, seed: string -> real)
    ensures Populate(s, phases, angles, deltaTime, selectedHex, tint, seed).angles.Keys == angles.Keys + Hexes(s)
  {
    if s != [] {
      var p := s[..|s| - 1];
      var x := s[|s| - 1];
      RotorAnglesKept(p, phases, angles, deltaTime, selectedHex, tint, seed);
      var bp := Populate(p, phases, angles, deltaTime, selectedHex, tint, seed);
      PlaceFields(bp, x, deltaTime, selectedHex, tint, seed);
      assert Populate(s, phases, angles, deltaTime, selectedHex, tint, seed) == Place(bp, x, deltaTime, selectedHex, tint, seed);
      HexesSnoc(s);
    }
  }

  /**
   * On states sorted by category order the spinning parts are the
   * helicopter rotors first and then the propellers, so the propellers start
   * at `helicopterCount`.
   */
  lemma {:induction false} SpinLayout(s: seq<InterpolatedAircraftState>, phases: map<string, real>, angles: map<string, real>,
                                      deltaTime: real, selectedHex: Option<string>, tint: Option<Color>, seed: string -> real)
    requires SortedBy(s, Key)
    ensures var b := Populate(s, phases, angles, deltaTime, selectedHex, tint, seed);
      |b.spins| == b.helicopters + b.props
      && (forall k :: 0 <= k < |b.spins| ==> (b.spins[k].kind.Propeller? <==> k >= b.helicopters))
      && (b.props > 0 ==> exists i :: 0 <= i < |s| && s[i].category == Small)
  {
    if s != [] {
      var p := s[..|s| - 1];
      var x := s[|s| - 1];
      assert SortedBy(p, Key);
      SpinLayout(p, phases, angles, deltaTime, selectedHex, tint, seed);
      var bp := Populate(p, phases, angles, deltaTime, selectedHex, tint, seed);
      var b := Populate(s, phases, angles, deltaTime, selectedHex, tint, seed);
      assert b == Place(bp, x, deltaTime, selectedHex, tint, seed);
      PlaceSpins(bp, x, deltaTime, selectedHex, tint, seed);
      if bp.props > 0 {
        var i :| 0 <= i < |p| && p[i].category == Small;
        assert s[i].category == Small;
        assert Key(s[i]) <= Key(x);
        assert x.category != Helicopter;
      }
      if x.category == Small {
        assert s[|s| - 1].category == Small;
      }
      forall k | 0 <= k < |b.spins|
        ensures b.spins[k].kind.Propeller? <==> k >= b.helicopters
      {
        if k < |bp.spins| {
          assert b.spins[k] == bp.spins[k];
        }
      }
    }
  }

  /** `Place` on the spinning parts: a helicopter adds a rotor, a small aircraft a propeller, others nothing. */
  lemma PlaceSpins(b: Buffers, x: InterpolatedAircraftState, deltaTime: real, selectedHex: Option<string>,
                   tint: Option<Color>, seed: string -> real)
    ensures var r := Place(b, x, deltaTime, selectedHex, tint, seed);
      (x.category == Helicopter ==>
         |r.spins| == |b.spins| + 1 && r.spins[..|b.spins|] == b.spins && r.spins[|b.spins|].kind == Rotor
         && r.helicopters == b.helicopters + 1 && r.props == b.props)
      && (x.category == Small ==>
         |r.spins| == |b.spins| + 1 && r.spins[..|b.spins|] == b.spins && r.spins[|b.spins|].kind.Propeller?
         && r.helicopters == b.helicopters && r.props == b.props + 1)
      && (x.category != Helicopter && x.category != Small ==>
         r.spins == b.spins && r.helicopters == b.helicopters && r.props == b.props)
  {
    PlaceFields(b, x, deltaTime, selectedHex, tint, seed);
  }

  /** The population loop, proved against `Populate`. */
  method PopulateBuffers(sorted: seq<InterpolatedAircraftState>, phases: map<string, real>, angles: map<string, real>,
                         deltaTime: real, selectedHex: Option<string>, tint: Option<Color>, seed: string -> real)
    returns (b: Buffers)
    ensures b == Populate(sorted, phases, angles, deltaTime, selectedHex, tint, seed)
  {
    b := Buffers(phases, angles, [], [], [], 0, 0);
    for i := 0 to |sorted|
      invariant b == Populate(sorted[..i], phases, angles, deltaTime, selectedHex, tint, seed)
    {
      assert sorted[..i + 1][..i] == sorted[..i] && sorted[..i + 1][i] == sorted[i];
      b := PlaceState(b, sorted[i], deltaTime, selectedHex, tint, seed);
    }
    assert sorted[..|sorted|] == sorted;
  }

  /** One iteration of the population loop, proved against `Place`. */
  method PlaceState(b: Buffers, state: InterpolatedAircraftState, deltaTime: real, selectedHex: Option<string>,
                    tint: Option<Color>, seed: string -> real)
    returns (r: Buffers)
    ensures r == Place(b, state, deltaTime, selectedHex, tint, seed)
  {
    var lightPhases, rotorAngles, spins := b.phases, b.angles, b.spins;
    var helicopterCount, propCount := b.helicopters, b.props;
    var phase := (if state.hex in lightPhases then lightPhases[state.hex] else seed(state.hex)) + deltaTime * 5.0;
    lightPhases := lightPhases[state.hex := phase];
    var rotorSpeed := RotorSpeed(state.category);
    var rotorAngle := (if state.hex in rotorAngles then rotorAngles[state.hex] else 0.0) + Turn(deltaTime, rotorSpeed);
    rotorAngles := rotorAngles[state.hex := rotorAngle];
    var color := if tint.Some? then tint.value else AltitudeColor(state.altitude);
    var flags := if selectedHex == Some(state.hex) then 1 else 0;
    var instance := Instance(state.position, state.heading, color, phase, rotorAngle, flags);
    var glow := Glow(Vec3(state.position.x, state.position.y + 1.0, state.position.z), color);
    if state.category == Helicopter {
      spins := spins + [SpinPart(state.position, Rotor, rotorAngle, Color(0.3, 0.3, 0.3, 1.0))];
      helicopterCount := helicopterCount + 1;
    } else if state.category == Small {
      spins := spins + [SpinPart(state.position, Propeller(state.heading), rotorAngle, Color(0.2, 0.2, 0.2, 1.0))];
      propCount := propCount + 1;
    }
    PlaceFields(b, state, deltaTime, selectedHex, tint, seed);
    r := Buffers(lightPhases, rotorAngles, b.instances + [instance], b.glows + [glow], spins, helicopterCount, propCount);
  }

  function Min(a: int, b: int): int { if a < b then a else b }

  /** `states.prefix(count).sorted { sortOrder }`. */
  function Batched(states: seq<InterpolatedAircraftState>): seq<InterpolatedAircraftState>
  {
    SortBy(states[..Min(|states|, MaxInstances)], Key)
  }

  class AircraftInstanceManager {
    var categoryRanges: map<Category, CategoryRange>
    var totalAircraftCount: nat
    var helicopterCount: nat
    var propCount: nat
    var helicopterSpinOffset: nat
    var propSpinOffset: nat
    var lightPhases: map<string, real>
    var rotorAngles: map<string, real>
    /** The contents written to the frame's instance, glow and spin buffers. */
    var instances: seq<Instance>
    var glows: seq<Glow>
    var spins: seq<SpinPart>

    constructor ()
      ensures categoryRanges == map[] && totalAircraftCount == 0 && helicopterCount == 0 && propCount == 0
      ensures lightPhases == map[] && rotorAngles == map[] && instances == [] && glows == [] && spins == []
    {
      categoryRanges := map[];
      totalAircraftCount := 0;
      helicopterCount := 0;
      propCount := 0;
      helicopterSpinOffset := 0;
      propSpinOffset := 0;
      lightPhases := map[];
      rotorAngles := map[];
      instances := [];
      glows := [];
      spins := [];
    }

    /** `update(states:...)`: the first 1024 states, sorted by category order, fill the buffers. */
    method Update(states: seq<InterpolatedAircraftState>, deltaTime: real, selectedHex: Option<string>,
                  tintColor: Option<Color>, seed: string -> real)
      modifies this
      ensures totalAircraftCount == Min(|states|, MaxInstances)
      ensures categoryRanges == Ranges(Batched(states))
      ensures Buffers(lightPhases, rotorAngles, instances, glows, spins, helicopterCount, propCount)
        == Populate(Batched(states), old(lightPhases), old(rotorAngles), deltaTime, selectedHex, tintColor, seed)
      ensures helicopterSpinOffset == 0 && propSpinOffset == helicopterCount
    {
      var count := Min(|states|, MaxInstances);
      var sorted := Batched(states);
      var ranges := ComputeRanges(sorted);
      var b := PopulateBuffers(sorted, lightPhases, rotorAngles, deltaTime, selectedHex, tintColor, seed);
      Publish(count, ranges, b);
    }

    /** Stores one frame's results; spinning parts are laid out helicopters first, then propellers. */
    method Publish(count: nat, ranges: map<Category, CategoryRange>, b: Buffers)
      modifies this
      ensures totalAircraftCount == count && categoryRanges == ranges
      ensures Buffers(lightPhases, rotorAngles, instances, glows, spins, helicopterCount, propCount) == b
      ensures helicopterSpinOffset == 0 && propSpinOffset == helicopterCount
    {
      totalAircraftCount := count;
      categoryRanges := ranges;
      lightPhases, rotorAngles := b.phases, b.angles;
      instances, glows, spins := b.instances, b.glows, b.spins;
      helicopterCount, propCount := b.helicopters, b.props;
      helicopterSpinOffset := 0;
      propSpinOffset := helicopterCount;
    }
  }

  /**
   * What one update leaves in the buffers: one range per category present
   * among the first 1024 states, exact and in category order, and spinning
   * parts split into rotors then propellers at `helicopterCount`.
   */
  lemma UpdateLayout(states: seq<InterpolatedAircraftState>, phases: map<string, real>, angles: map<string, real>,
                     deltaTime: real, selectedHex: Option<string>, tint: Option<Color>, seed: string -> real)
    ensures var kept := states[..Min(|states|, MaxInstances)];
      var sorted := Batched(states);
      var b := Populate(sorted, phases, angles, deltaTime, selectedHex, tint, seed);
      |sorted| <= MaxInstances && multiset(sorted) == multiset(kept)
      && Ranges(sorted).Keys == Categories(kept)
      && (forall c :: c in Ranges(sorted) ==> Exact(sorted, c, Ranges(sorted)[c]))
      && (forall k :: 0 <= k < |b.spins| ==> (b.spins[k].kind.Propeller? <==> k >= b.helicopters))
  {
    var kept := states[..Min(|states|, MaxInstances)];
    var sorted := Batched(states);
    SortByIsSortedPermutation(kept, Key);
    RangesPartition(sorted);
    SortedCategories(kept);
    SpinLayout(sorted, phases, angles, deltaTime, selectedHex, tint, seed);
  }
}
