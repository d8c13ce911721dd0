/** The two tolerant normalisers from provider records to `AircraftModel`. */
module DataNormalizer {
  import opened Wrappers
  import opened Text
  import opened Aircraft

  /** A record is usable iff it carries hex, lat and lon. */
  predicate V2Usable(ac: V2Aircraft) { ac.hex.Some? && ac.lat.Some? && ac.lon.Some? }

  predicate Dump1090Usable(ac: Dump1090Aircraft) { ac.hex.Some? && ac.lat.Some? && ac.lon.Some? }

  /** Altitude of a V2 record: barometric if present (ground = 0), else geometric, else 0. */
  function V2Altitude(ac: V2Aircraft): (alt: real)
    ensures ac.altBaro == Some(Ground) ==> alt == 0.0
    ensures ac.altBaro.Some? && ac.altBaro.value.Feet? ==> alt == ac.altBaro.value.ft as real
    ensures ac.altBaro.None? && ac.altGeom.Some? ==> alt == ac.altGeom.value as real
    ensures ac.altBaro.None? && ac.altGeom.None? ==> alt == 0.0
  {
    if ac.altBaro.Some? then AsFeet(ac.altBaro.value) else ac.altGeom.GetOr(0) as real
  }

  /** Vertical rate of a V2 record: barometric if present, else geometric, else 0. */
  function V2VerticalRate(ac: V2Aircraft): (rate: real)
    ensures ac.baroRate.Some? ==> rate == ac.baroRate.value as real
    ensures ac.baroRate.None? && ac.geomRate.Some? ==> rate == ac.geomRate.value as real
    ensures ac.baroRate.None? && ac.geomRate.None? ==> rate == 0.0
  {
    (if ac.baroRate.Some? then ac.baroRate.value else ac.geomRate.GetOr(0)) as real
  }

  function V2Record(ac: V2Aircraft): AircraftModel
    requires V2Usable(ac)
  {
    AircraftModel(
      ac.hex.value,
      Trim(ac.flight.GetOr("")),
      ac.lat.value,
      ac.lon.value,
      V2Altitude(ac),
      ac.track.GetOr(0.0),
      ac.gs.GetOr(0.0),
      V2VerticalRate(ac),
      ac.squawk.GetOr(""),
      ac.category.GetOr(""),
      ac.r.GetOr(""),
      ac.t.GetOr(""),
      ac.dbFlags.GetOr(0))
  }

  function Dump1090Record(ac: Dump1090Aircraft): AircraftModel
    requires Dump1090Usable(ac)
  {
    AircraftModel(
      ac.hex.value,
      Trim(ac.flight.GetOr("")),
      ac.lat.value,
      ac.lon.value,
      if ac.altitude.Some? then AsFeet(ac.altitude.value) else 0.0,
      ac.track.GetOr(0.0),
      ac.speed.GetOr(0.0),
      ac.vertRate.GetOr(0) as real,
      ac.squawk.GetOr(""),
      "", "", "", 0)
  }

  /** `compactMap` of `V2Record` over the usable records, in input order. */
  function V2List(acs: seq<V2Aircraft>): (r: seq<AircraftModel>)
    ensures |r| <= |acs|
  {
    if acs == [] then []
    else (if V2Usable(acs[0]) then [V2Record(acs[0])] else []) + V2List(acs[1..])
  }

  function Dump1090List(acs: seq<Dump1090Aircraft>): (r: seq<AircraftModel>)
    ensures |r| <= |acs|
  {
    if acs == [] then []
    else (if Dump1090Usable(acs[0]) then [Dump1090Record(acs[0])] else []) + Dump1090List(acs[1..])
  }

  /** `normalizeV2`: no aircraft list gives no aircraft. */
  function NormalizeV2(resp: V2Response): (r: seq<AircraftModel>)
    ensures resp.ac.None? ==> r == []
    ensures resp.ac.Some? ==> |r| <= |resp.ac.value|
  {
    if resp.ac.None? then [] else V2List(resp.ac.value)
  }

  /** `normalizeDump1090`: no aircraft list gives no aircraft. */
  function NormalizeDump1090(resp: Dump1090Response): (r: seq<AircraftModel>)
    ensures resp.aircraft.None? ==> r == []
    ensures resp.aircraft.Some? ==> |r| <= |resp.aircraft.value|
  {
    if resp.aircraft.None? then [] else Dump1090List(resp.aircraft.value)
  }

  /** The records kept, as a subsequence of the input: exactly the usable ones. */
  function UsableV2(acs: seq<V2Aircraft>): seq<V2Aircraft>
  {
    if acs == [] then [] else (if V2Usable(acs[0]) then [acs[0]] else []) + UsableV2(acs[1..])
  }

  function UsableDump1090(acs: seq<Dump1090Aircraft>): seq<Dump1090Aircraft>
  {
    if acs == [] then [] else (if Dump1090Usable(acs[0]) then [acs[0]] else []) + UsableDump1090(acs[1..])
  }

  /**
   * A V2 record is kept iff it is usable; the kept ones keep their order and
   * the i-th output comes from the i-th usable input, with hex, lat and lon
   * copied unchanged.
   */
  lemma {:induction false} V2KeepsExactlyUsable(acs: seq<V2Aircraft>)
    ensures var r := V2List(acs); var u := UsableV2(acs);
      |r| == |u| &&
      (forall i :: 0 <= i < |u| ==> V2Usable(u[i]) && r[i] == V2Record(u[i])) &&
      (forall i :: 0 <= i < |r| ==> Some(r[i].hex) == u[i].hex && Some(r[i].lat) == u[i].lat && Some(r[i].lon) == u[i].lon)
    ensures forall a :: a in UsableV2(acs) <==> a in acs && V2Usable(a)
  {
    if acs != [] {
      var rest := acs[1..];
      V2KeepsExactlyUsable(rest);
      var rp := V2List(rest);
      var up := UsableV2(rest);
      assert acs == [acs[0]] + rest;
      if V2Usable(acs[0]) {
        var r := V2List(acs);
        var u := UsableV2(acs);
        assert r == [V2Record(acs[0])] + rp;
        assert u == [acs[0]] + up;
        forall i | 0 < i < |u|
          ensures u[i] == up[i - 1] && r[i] == rp[i - 1]
        {
        }
      } else {
        assert V2List(acs) == rp && UsableV2(acs) == up;
      }
    }
  }

  lemma {:induction false} Dump1090KeepsExactlyUsable(acs: seq<Dump1090Aircraft>)
    ensures var r := Dump1090List(acs); var u := UsableDump1090(acs);
      |r| == |u| &&
      (forall i :: 0 <= i < |u| ==> Dump1090Usable(u[i]) && r[i] == Dump1090Record(u[i])) &&
      (forall i :: 0 <= i < |r| ==> Some(r[i].hex) == u[i].hex && Some(r[i].lat) == u[i].lat && Some(r[i].lon) == u[i].lon)
    ensures forall a :: a in UsableDump1090(acs) <==> a in acs && Dump1090Usable(a)
  {
    if acs != [] {
      var rest := acs[1..];
      Dump1090KeepsExactlyUsable(rest);
      var rp := Dump1090List(rest);
      var up := UsableDump1090(rest);
      assert acs == [acs[0]] + rest;
      if Dump1090Usable(acs[0]) {
        var r := Dump1090List(acs);
        var u := UsableDump1090(acs);
        assert r == [Dump1090Record(acs[0])] + rp;
        assert u == [acs[0]] + up;
        forall i | 0 < i < |u|
          ensures u[i] == up[i - 1] && r[i] == rp[i - 1]
        {
        }
      } else {
        assert Dump1090List(acs) == rp && UsableDump1090(acs) == up;
      }
    }
  }

  /** dump1090 records: speed becomes ground speed, and the enrichment fields are always empty. */
  lemma Dump1090Defaults(ac: Dump1090Aircraft)
    requires Dump1090Usable(ac)
    ensures var m := Dump1090Record(ac);
      m.groundSpeed == ac.speed.GetOr(0.0) &&
      m.verticalRate == ac.vertRate.GetOr(0) as real &&
      (ac.altitude.None? || ac.altitude == Some(Ground) ==> m.altitude == 0.0) &&
      m.category == "" && m.registration == "" && m.typeCode == "" && m.dbFlags == 0
  {
  }
}
