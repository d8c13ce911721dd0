/**
 * The airport search panel: text search over name, IATA and ICAO codes
 * (first ten matches, in list order), the ten airports nearest the camera
 * target, and the fly-to action.
 */
module AirportSearch {
  import opened Wrappers
  import opened Geometry
  import opened Text
  import opened Sorting
  import opened AirportLabels

  const MaxResults: nat := 10

  /** An airport's pre-lowercased search fields; a missing IATA code searches as "". */
  datatype SearchFields = SearchFields(name: string, iata: string, icao: string)

  function FieldsOf(a: Airport): SearchFields
  {
    SearchFields(Lower(a.name), Lower(a.iata.GetOr("")), Lower(a.icao))
  }

  /** The query `filteredAirports` searches for: the search text trimmed, then lowercased. */
  function Query(searchText: string): (q: string)
    ensures |q| <= |searchText|
    ensures q == [] <==> forall i :: 0 <= i < |searchText| ==> IsBlank(searchText[i])
    ensures |q| == |Trim(searchText)| && forall k :: 0 <= k < |q| ==> q[k] == LowerChar(Trim(searchText)[k])
  {
    Lower(Trim(searchText))
  }

  predicate Matches(f: SearchFields, q: string)
  {
    Contains(f.name, q) || Contains(f.iata, q) || Contains(f.icao, q)
  }

  /** Every airport that matches `q`, in list order. */
  function MatchesOf(airports: seq<Airport>, q: string): (r: seq<Airport>)
    ensures |r| <= |airports|
  {
    if airports == [] then []
    else
      var last := airports[|airports| - 1];
      MatchesOf(airports[..|airports| - 1], q) + (if Matches(FieldsOf(last), q) then [last] else [])
  }

  /** An airport is among the matches exactly when it is in the list and one of its fields contains `q`. */
  lemma {:induction false} MatchesOfMembers(airports: seq<Airport>, q: string, a: Airport)
    ensures a in MatchesOf(airports, q) <==> a in airports && Matches(FieldsOf(a), q)
  {
    if airports != [] {
      var init := airports[..|airports| - 1];
      MatchesOfMembers(init, q, a);
      assert airports == init + [airports[|airports| - 1]];
    }
  }

  /** The matches of a prefix of the list are a prefix of the matches of the whole list. */
  lemma {:induction false} MatchesOfPrefix(airports: seq<Airport>, q: string, n: nat)
    requires n <= |airports|
    ensures MatchesOf(airports[..n], q) <= MatchesOf(airports, q)
  {
    if n < |airports| {
      var init := airports[..|airports| - 1];
      MatchesOfPrefix(init, q, n);
      assert init[..n] == airports[..n];
    } else {
      assert airports[..n] == airports;
    }
  }

  lemma MatchesOfStep(airports: seq<Airport>, q: string, i: nat, hit: bool)
    requires i < |airports| && hit == Matches(FieldsOf(airports[i]), q)
    ensures MatchesOf(airports[..i + 1], q) == MatchesOf(airports[..i], q) + (if hit then [airports[i]] else [])
  {
    assert airports[..i + 1][..i] == airports[..i];
  }

  /** Ten matches found in a prefix of the list are the first ten matches of the whole list. */
  lemma ScanFull(airports: seq<Airport>, q: string, n: nat, results: seq<Airport>)
    requires n <= |airports| && results == MatchesOf(airports[..n], q) && |results| == MaxResults
    ensures MaxResults <= |MatchesOf(airports, q)| && results == MatchesOf(airports, q)[..MaxResults]
  {
    MatchesOfPrefix(airports, q, n);
  }

  /** `filteredAirports`: nothing for an empty query, else the first ten matches in list order. */
  function Filtered(airports: seq<Airport>, searchText: string): (r: seq<Airport>)
    ensures |r| <= MaxResults
    ensures Query(searchText) == [] ==> r == []
    ensures Query(searchText) != [] ==> r <= MatchesOf(airports, Query(searchText))
    ensures Query(searchText) != [] ==> |r| == if |MatchesOf(airports, Query(searchText))| < MaxResults
                                                then |MatchesOf(airports, Query(searchText))| else MaxResults
  {
    var q := Query(searchText);
    if q == [] then []
    else
      var m := MatchesOf(airports, q);
      if |m| < MaxResults then m else m[..MaxResults]
  }

  /** One entry of `nearbyAirports`. */
  datatype NearbyAirport = NearbyAirport(airport: Airport, distance: real)

  function DistanceOfEntry(e: NearbyAirport): real { e.distance }

  /**
   * Each airport with its XZ distance from the camera target; `lonToX` and
   * `latToZ` are the map projection and `root` the square root.
   */
  function Entries(airports: seq<Airport>, target: Vec3, lonToX: real -> real, latToZ: real -> real,
                   root: real -> real): (r: seq<NearbyAirport>)
    ensures |r| == |airports|
    ensures forall i :: 0 <= i < |r| ==> r[i].airport == airports[i]
  {
    seq(|airports|, i requires 0 <= i < |airports| =>
      var dx := lonToX(airports[i].lon) - target.x;
      var dz := latToZ(airports[i].lat) - target.z;
      NearbyAirport(airports[i], root(dx * dx + dz * dz)))
  }

  /** `nearbyAirports`: the entries ordered by distance, the first ten of them. */
  function Nearby(airports: seq<Airport>, target: Vec3, lonToX: real -> real, latToZ: real -> real,
                  root: real -> real): seq<NearbyAirport>
  {
    var sorted := SortBy(Entries(airports, target, lonToX, latToZ, root), DistanceOfEntry);
    if |sorted| < MaxResults then sorted else sorted[..MaxResults]
  }

  /** At most ten entries, nearest first, drawn from the airports, and none left out is nearer than one kept. */
  lemma NearbyNearestFirst(airports: seq<Airport>, target: Vec3, lonToX: real -> real, latToZ: real -> real,
                           root: real -> real)
    ensures var es := Entries(airports, target, lonToX, latToZ, root);
            var n := Nearby(airports, target, lonToX, latToZ, root);
            |n| == (if |airports| < MaxResults then |airports| else MaxResults) &&
            multiset(n) <= multiset(es) &&
            (forall i, j :: 0 <= i < j < |n| ==> n[i].distance <= n[j].distance) &&
            (forall i, e :: 0 <= i < |n| && e in multiset(es) - multiset(n) ==> n[i].distance <= e.distance)
  {
    var es := Entries(airports, target, lonToX, latToZ, root);
    var m := if |es| < MaxResults then |es| else MaxResults;
    NearbyIsSortedPrefix(es, m);
    NearbyKeepsNearest(es, m);
    assert Nearby(airports, target, lonToX, latToZ, root) == SortBy(es, DistanceOfEntry)[..m];
  }

  lemma NearbyIsSortedPrefix(es: seq<NearbyAirport>, m: nat)
    requires m <= |es|
    ensures var n := SortBy(es, DistanceOfEntry)[..m];
            |n| == m && multiset(n) <= multiset(es) &&
            (forall i, j :: 0 <= i < j < |n| ==> n[i].distance <= n[j].distance)
  {
    var n := SortBy(es, DistanceOfEntry)[..m];
    SortByIsSortedPermutation(es, DistanceOfEntry);
    assert |SortBy(es, DistanceOfEntry)| == |multiset(es)|;
    SortedPrefix(es, DistanceOfEntry, m);
    forall i, j | 0 <= i < j < |n|
      ensures n[i].distance <= n[j].distance
    {
      assert DistanceOfEntry(n[i]) <= DistanceOfEntry(n[j]);
    }
  }

  lemma NearbyKeepsNearest(es: seq<NearbyAirport>, m: nat)
    requires m <= |es|
    ensures var n := SortBy(es, DistanceOfEntry)[..m];
            forall i, e :: 0 <= i < |n| && e in multiset(es) - multiset(n) ==> n[i].distance <= e.distance
  {
    var sorted := SortBy(es, DistanceOfEntry);
    var n := sorted[..m];
    SmallestFirst(es, DistanceOfEntry, m);
    forall i, e | 0 <= i < |n| && e in multiset(es) - multiset(n)
      ensures n[i].distance <= e.distance
    {
      assert n[i] == sorted[i];
      assert DistanceOfEntry(sorted[i]) <= DistanceOfEntry(e);
    }
  }

  class AirportSearchViewModel {
    var searchText: string
    var showNearby: bool
    var cameraTarget: Vec3
    const airports: seq<Airport>
    const searchableFields: seq<SearchFields>
    /** Positions posted as `.flyToAirport` notifications, oldest first. */
    var posted: seq<Vec3>

    /** The search fields are the airports' own, lowercased, one per airport. */
    predicate Valid()
    {
      |searchableFields| == |airports| &&
      forall i :: 0 <= i < |airports| ==> searchableFields[i] == FieldsOf(airports[i])
    }

    /** `init`: the decoded airport list, or no airports when loading or decoding fails. */
    constructor (loaded: Option<seq<Airport>>)
      ensures Valid()
      ensures airports == loaded.GetOr([])
      ensures searchText == [] && showNearby && cameraTarget == Vec3(0.0, 0.0, 0.0) && posted == []
    {
      var list := loaded.GetOr([]);
      airports := list;
      searchableFields := seq(|list|, i requires 0 <= i < |list| => FieldsOf(list[i]));
      searchText := [];
      showNearby := true;
      cameraTarget := Vec3(0.0, 0.0, 0.0);
      posted := [];
    }

    /** `filteredAirports`: nothing for an empty query, else the scan below. */
    method FilteredAirports() returns (results: seq<Airport>)
      requires Valid()
      ensures results == Filtered(airports, searchText)
    {
      var query := Lower(Trim(searchText));
      assert query == Query(searchText);
      if query == [] {
        return [];
      }
      results := ScanMatches(query);
    }

    /** The loop of `filteredAirports`: scans the list in order and stops at the tenth match. */
    method ScanMatches(query: string) returns (results: seq<Airport>)
      requires Valid()
      ensures var m := MatchesOf(airports, query);
              results == if |m| < MaxResults then m else m[..MaxResults]
    {
      results := [];
      for i := 0 to |airports|
        invariant results == MatchesOf(airports[..i], query)
        invariant |results| < MaxResults
      {
        var hit := Matches(searchableFields[i], query);
        MatchesOfStep(airports, query, i, hit);
        if hit {
          results := results + [airports[i]];
          if |results| >= MaxResults {
            ScanFull(airports, query, i + 1, results);
            return;
          }
        }
      }
      assert airports[..|airports|] == airports;
    }

    /** `nearbyAirports` at the current camera target. */
    function NearbyAirports(lonToX: real -> real, latToZ: real -> real, root: real -> real): (r: seq<NearbyAirport>)
      reads this
      ensures |r| <= MaxResults
      ensures forall i, j :: 0 <= i < j < |r| ==> r[i].distance <= r[j].distance
    {
      NearbyNearestFirst(airports, cameraTarget, lonToX, latToZ, root);
      Nearby(airports, cameraTarget, lonToX, latToZ, root)
    }

    /** `flyTo`: posts the airport's ground position and clears the search. */
    method FlyTo(airport: Airport, lonToX: real -> real, latToZ: real -> real)
      modifies this
      ensures searchText == []
      ensures posted == old(posted) + [Vec3(lonToX(airport.lon), 0.5, latToZ(airport.lat))]
      ensures showNearby == old(showNearby) && cameraTarget == old(cameraTarget)
    {
      var x := lonToX(airport.lon);
      var z := latToZ(airport.lat);
      posted := posted + [Vec3(x, 0.5, z)];
      searchText := [];
    }
  }
}
