/**
 * Wire records of the two ADS-B provider schemas, the altitude value they
 * share, and the normalised aircraft record the rest of the app consumes.
 */
module Aircraft {
  import opened Wrappers
  import opened Json

  /** Swift's `Int` on the 64-bit platforms the app runs on. */
  newtype Int64 = x: int | -0x8000_0000_0000_0000 <= x < 0x8000_0000_0000_0000

  predicate InInt64(n: int) { -0x8000_0000_0000_0000 <= n < 0x8000_0000_0000_0000 }

  /** An altitude as the APIs send it: a number of feet or the word "ground". */
  datatype AltitudeValue = Feet(ft: Int64) | Ground

  /**
   * What `decode(Int.self)` accepts: an integer literal in range, or a number
   * with a fraction part that is exactly integral (35000.0) and in range.
   */
  function AsInt(v: Value): (r: Option<Int64>)
    ensures r.Some? <==> (v.JInt? && InInt64(v.i)) || (v.JDouble? && v.d.Floor as real == v.d && InInt64(v.d.Floor))
    ensures r.Some? ==> v == JInt(r.value as int) || v == JDouble(r.value as real)
  {
    match v
    case JInt(n) => if InInt64(n) then Some(n as Int64) else None
    case JDouble(d) => if d.Floor as real == d && InInt64(d.Floor) then Some(d.Floor as Int64) else None
    case _ => None
  }

  /** Tolerant decoder: an integer is feet, "ground" is ground, anything else is 0 ft. */
  function DecodeAltitude(v: Value): (a: AltitudeValue)
    ensures a.Ground? <==> v == JString("ground")
    ensures AsInt(v).Some? ==> a == Feet(AsInt(v).value)
    ensures a.Feet? && a.ft != 0 ==> v == JInt(a.ft as int) || v == JDouble(a.ft as real)
  {
    match AsInt(v)
    case Some(n) => Feet(n)
    case None => if v == JString("ground") then Ground else Feet(0)
  }

  function EncodeAltitude(a: AltitudeValue): (v: Value)
    ensures v.JInt? || v.JString?
  {
    match a
    case Feet(n) => JInt(n as int)
    case Ground => JString("ground")
  }

  /** Decoding what was encoded gives the value back. */
  lemma DecodeEncode(a: AltitudeValue)
    ensures DecodeAltitude(EncodeAltitude(a)) == a
  {
  }

  /** An integral number with a fraction part decodes as the same altitude as the plain integer. */
  lemma IntegralDoubleDecodes(n: Int64)
    ensures DecodeAltitude(JDouble(n as real)) == DecodeAltitude(JInt(n as int)) == Feet(n)
  {
    assert (n as real).Floor == n as int;
  }

  /**
   * Values `decode(Int.self)` rejects and that are not "ground" decode to 0 ft,
   * so decoding never fails: other types, fractional numbers, and integers
   * outside the 64-bit range.
   */
  lemma DecodeFallback(v: Value)
    requires v != JString("ground")
    requires (!v.JInt? && !v.JDouble?) || (v.JInt? && !InInt64(v.i)) ||
             (v.JDouble? && (v.d.Floor as real != v.d || !InInt64(v.d.Floor)))
    ensures DecodeAltitude(v) == Feet(0)
  {
  }

  /** `asFeet`: ground counts as 0 ft. */
  function AsFeet(a: AltitudeValue): (r: real)
    ensures a.Ground? ==> r == 0.0
    ensures a.Feet? ==> r == a.ft as real
  {
    match a
    case Feet(n) => n as real
    case Ground => 0.0
  }

  /** One aircraft of the airplanes.live / adsb.lol V2 schema (fields the app reads). */
  datatype V2Aircraft = V2Aircraft(
    hex: Option<string>,
    flight: Option<string>,
    r: Option<string>,
    t: Option<string>,
    lat: Option<real>,
    lon: Option<real>,
    altBaro: Option<AltitudeValue>,
    altGeom: Option<int>,
    gs: Option<real>,
    track: Option<real>,
    baroRate: Option<int>,
    geomRate: Option<int>,
    squawk: Option<string>,
    category: Option<string>,
    dbFlags: Option<int>)

  datatype V2Response = V2Response(ac: Option<seq<V2Aircraft>>)

  /** One aircraft of a local dump1090 receiver (fields the app reads). */
  datatype Dump1090Aircraft = Dump1090Aircraft(
    hex: Option<string>,
    flight: Option<string>,
    lat: Option<real>,
    lon: Option<real>,
    altitude: Option<AltitudeValue>,
    speed: Option<real>,
    track: Option<real>,
    vertRate: Option<int>,
    squawk: Option<string>)

  datatype Dump1090Response = Dump1090Response(aircraft: Option<seq<Dump1090Aircraft>>)

  /** The common normalised record. */
  datatype AircraftModel = AircraftModel(
    hex: string,
    callsign: string,
    lat: real,
    lon: real,
    altitude: real,
    track: real,
    groundSpeed: real,
    verticalRate: real,
    squawk: string,
    category: string,
    registration: string,
    typeCode: string,
    dbFlags: int)
}

/** The render-ready state produced by interpolation each frame. */
module RenderState {
  import opened Geometry
  import opened AircraftCategory

  /**
   * `heading` is in radians (the interpolator converts the blended track);
   * `squawk`, `lat` and `lon` are carried because the interpolator sets them
   * and the heat map reads them.
   */
  datatype InterpolatedAircraftState = InterpolatedAircraftState(
    position: Vec3,
    heading: real,
    groundSpeed: real,
    verticalRate: real,
    altitude: real,
    category: Category,
    hex: string,
    callsign: string,
    squawk: string,
    lat: real,
    lon: real)
}
