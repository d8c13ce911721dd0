/** The six rendering categories and the priority-chain classifier. */
module AircraftCategory {
  import opened Text
  import opened Aircraft

  datatype Category = Jet | Widebody | Helicopter | Small | Military | Regional

  const HeliTypes: seq<string> :=
    ["R22", "R44", "R66", "B06", "B47", "EC35", "EC45", "AS50", "S76", "B412", "A109", "B429", "H60", "UH1"]
  const WideTypes: seq<string> := ["B74", "B77", "B78", "A33", "A34", "A35", "A38", "B76", "MD11"]
  const MilTypes: seq<string> :=
    ["F16", "F15", "F18", "F22", "F35", "C17", "C130", "C5", "KC", "B1", "B2", "B52", "E3", "E6", "P8", "V22"]
  const HeliCallsigns: seq<string> := ["LIFE", "MED", "HELI", "COAST", "RESCUE"]
  const MilCallsigns: seq<string> :=
    ["RCH", "REACH", "DUKE", "EVAC", "SPAR", "EXEC", "FORCE", "NAVY", "ARMY", "TOPCAT", "HAWK"]
  const WideCallsigns: seq<string> := ["UAE", "QTR", "SIA", "CPA", "BAW", "DLH", "AFR", "KLM", "ANA", "JAL"]

  /** `list.contains(where: { s.hasPrefix($0) })`. */
  predicate AnyPrefix(s: string, list: seq<string>)
  {
    exists i :: 0 <= i < |list| && HasPrefix(s, list[i])
  }

  /** Bit 0 of `dbFlags` (two's complement), the military flag. */
  predicate MilitaryFlag(flags: int) { flags % 2 == 1 }

  /** Priority 2: the ADS-B emitter category, when it decides. */
  predicate DecisiveEmitter(code: string)
  {
    code in {"A1", "A2", "A3", "A4", "A5", "A6", "A7", "B1", "B2"}
  }

  function EmitterCategory(code: string): Category
    requires DecisiveEmitter(code)
  {
    if code == "A1" || code == "A2" || code == "B1" || code == "B2" then Small
    else if code == "A3" then Regional
    else if code == "A4" then Jet
    else if code == "A5" || code == "A6" then Widebody
    else Helicopter
  }

  /** Priority 3: the upper-cased ICAO type code, when one of its prefix lists matches. */
  predicate DecisiveType(typeCode: string)
  {
    var t := Upper(typeCode);
    t != [] && (AnyPrefix(t, HeliTypes) || AnyPrefix(t, WideTypes) || AnyPrefix(t, MilTypes))
  }

  function TypeCategory(typeCode: string): Category
    requires DecisiveType(typeCode)
  {
    var t := Upper(typeCode);
    if AnyPrefix(t, HeliTypes) then Helicopter
    else if AnyPrefix(t, WideTypes) then Widebody
    else Military
  }

  /** "N" followed by a digit (`isNumber`, restricted here to ASCII 0-9). */
  predicate NNumber(cs: string) { HasPrefix(cs, "N") && |cs| > 1 && IsDigit(cs[1]) }

  /** Priority 4: callsign, altitude and speed heuristics. */
  function HeuristicCategory(callsign: string, alt: real, speed: real): Category
  {
    var cs := Upper(callsign);
    if alt < 3000.0 && speed < 150.0 && (AnyPrefix(cs, HeliCallsigns) || NNumber(cs)) then Helicopter
    else if AnyPrefix(cs, MilCallsigns) then Military
    else if alt < 10000.0 && speed < 200.0 && (HasPrefix(cs, "N") || cs == []) then Small
    else if alt < 30000.0 && speed < 400.0 then Regional
    else if AnyPrefix(cs, WideCallsigns) then Widebody
    else Jet
  }

  /** `classify`: the first priority level that decides wins. */
  function Classify(a: AircraftModel): (c: Category)
    ensures MilitaryFlag(a.dbFlags) ==> c == Military
    ensures !MilitaryFlag(a.dbFlags) && DecisiveEmitter(a.category) ==> c == EmitterCategory(a.category)
    ensures !MilitaryFlag(a.dbFlags) && !DecisiveEmitter(a.category) && DecisiveType(a.typeCode) ==>
      c == TypeCategory(a.typeCode)
    ensures !MilitaryFlag(a.dbFlags) && !DecisiveEmitter(a.category) && !DecisiveType(a.typeCode) ==>
      c == HeuristicCategory(a.callsign, a.altitude, a.groundSpeed)
  {
    if MilitaryFlag(a.dbFlags) then Military
    else if a.category == "A1" || a.category == "A2" then Small
    else if a.category == "A3" then Regional
    else if a.category == "A4" then Jet
    else if a.category == "A5" || a.category == "A6" then Widebody
    else if a.category == "A7" then Helicopter
    else if a.category == "B1" || a.category == "B2" then Small
    else
      var t := Upper(a.typeCode);
      if t != [] && AnyPrefix(t, HeliTypes) then Helicopter
      else if t != [] && AnyPrefix(t, WideTypes) then Widebody
      else if t != [] && AnyPrefix(t, MilTypes) then Military
      else HeuristicCategory(a.callsign, a.altitude, a.groundSpeed)
  }

  /** The military flag wins whatever the other fields say. */
  lemma MilitaryFlagOverrides(a: AircraftModel, b: AircraftModel)
    requires MilitaryFlag(a.dbFlags) && MilitaryFlag(b.dbFlags)
    ensures Classify(a) == Classify(b) == Military
  {
  }

  /**
   * A decisive emitter category overrides type code, callsign, altitude and
   * speed: two records that agree on flags and category classify alike.
   */
  lemma EmitterOverridesRest(a: AircraftModel, b: AircraftModel)
    requires a.dbFlags == b.dbFlags && a.category == b.category && DecisiveEmitter(a.category)
    ensures Classify(a) == Classify(b)
  {
  }

  /** A matching type code overrides callsign, altitude and speed. */
  lemma TypeOverridesHeuristics(a: AircraftModel, b: AircraftModel)
    requires a.dbFlags == b.dbFlags && a.category == b.category && a.typeCode == b.typeCode
    requires DecisiveType(a.typeCode)
    ensures Classify(a) == Classify(b)
  {
  }

  /** Codes outside the decisive list (A0, the C codes, "") fall through to the later levels. */
  lemma UndecisiveCodesFallThrough(a: AircraftModel)
    requires !MilitaryFlag(a.dbFlags) && a.category in {"", "A0", "C1", "C2", "C3"}
    ensures Classify(a) == Classify(a.(category := "A0"))
  {
  }

  /**
   * Type prefix lists are consulted helicopter first: without the military
   * flag or a decisive emitter code, a type code with a helicopter prefix is a
   * helicopter whatever the callsign, altitude and speed say.
   */
  lemma HelicopterTypesFirst(a: AircraftModel)
    requires !MilitaryFlag(a.dbFlags) && !DecisiveEmitter(a.category)
    requires AnyPrefix(Upper(a.typeCode), HeliTypes)
    ensures Classify(a) == Helicopter
  {
    var k :| 0 <= k < |HeliTypes| && HasPrefix(Upper(a.typeCode), HeliTypes[k]);
    assert Upper(a.typeCode) != [];
  }

  /** Strings whose second characters differ are not prefixes of each other. */
  lemma SecondCharMismatch(s: string, p: string)
    requires |s| > 1 && |p| > 1 && s[1] != p[1]
    ensures !HasPrefix(s, p)
  {
    if |p| <= |s| {
      assert s[..|p|][1] != p[1];
    }
  }

  /** No callsign starts with both a long-haul carrier prefix and a military one. */
  lemma CarriersAreNotMilitary(cs: string)
    requires AnyPrefix(cs, WideCallsigns)
    ensures !AnyPrefix(cs, MilCallsigns)
  {
    var k :| 0 <= k < |WideCallsigns| && HasPrefix(cs, WideCallsigns[k]);
    assert cs[..2] == WideCallsigns[k][..2];
    forall i | 0 <= i < |MilCallsigns| ensures !HasPrefix(cs, MilCallsigns[i]) {
      if cs[0] != MilCallsigns[i][0] {
        FirstCharMismatch(cs, MilCallsigns[i]);
      } else {
        SecondCharMismatch(cs, MilCallsigns[i]);
      }
    }
  }

  /**
   * The regional band is tested before the long-haul carrier list: without a
   * decisive flag, emitter code or type code, a non-military callsign between
   * 10000 and 30000 ft below 400 kt is regional even when it is a carrier's;
   * from 30000 ft up a carrier's callsign is widebody.
   */
  lemma RegionalBeforeWidebodyCarriers(a: AircraftModel)
    requires !MilitaryFlag(a.dbFlags) && !DecisiveEmitter(a.category) && !DecisiveType(a.typeCode)
    ensures 10000.0 <= a.altitude < 30000.0 && a.groundSpeed < 400.0 && !AnyPrefix(Upper(a.callsign), MilCallsigns) ==>
      Classify(a) == Regional
    ensures a.altitude >= 30000.0 && AnyPrefix(Upper(a.callsign), WideCallsigns) ==> Classify(a) == Widebody
  {
    if AnyPrefix(Upper(a.callsign), WideCallsigns) {
      CarriersAreNotMilitary(Upper(a.callsign));
    }
  }

  /** An "N" + digit callsign is never a military one ("NAVY" has a letter second). */
  lemma NNumberNotMilitary(cs: string)
    requires NNumber(cs)
    ensures !AnyPrefix(cs, MilCallsigns)
  {
    forall i | 0 <= i < |MilCallsigns| ensures !HasPrefix(cs, MilCallsigns[i]) {
      if cs[0] != MilCallsigns[i][0] {
        FirstCharMismatch(cs, MilCallsigns[i]);
      } else {
        SecondCharMismatch(cs, MilCallsigns[i]);
      }
    }
  }

  /**
   * Low and slow "N" + digit registrations are helicopters; the same callsign
   * that is higher or faster, below 10000 ft and 200 kt, is small.
   */
  lemma NNumberHeuristic(callsign: string, alt: real, speed: real)
    requires NNumber(Upper(callsign))
    ensures alt < 3000.0 && speed < 150.0 ==> HeuristicCategory(callsign, alt, speed) == Helicopter
    ensures !(alt < 3000.0 && speed < 150.0) && alt < 10000.0 && speed < 200.0 ==>
      HeuristicCategory(callsign, alt, speed) == Small
  {
    NNumberNotMilitary(Upper(callsign));
  }
}
