/**
 * The live flight-data engine: provider fallback, the per-aircraft
 * time-windowed history buffer with stale eviction, and the per-frame
 * interpolator.  Network requests are replaced by their outcomes, and the
 * clock by explicit `now` / `renderTime` parameters.
 */
module FlightData {
  import opened Wrappers
  import opened Geometry
  import opened Aircraft
  import opened DataNormalizer
  import opened AircraftCategory
  import opened RenderState

  datatype DataMode = Local | Global

  /** An API provider: its name and consecutive-failure counter (the URL builder is left out). */
  datatype Provider = Provider(name: string, failCount: int)

  datatype BufferEntry = BufferEntry(timestamp: real, data: AircraftModel)

  const InterpolationDelay: real := 2.0
  const LocalBufferWindow: real := 5.0
  const GlobalBufferWindow: real := 15.0
  const LocalStaleThreshold: real := 4.0
  const GlobalStaleThreshold: real := 9.0
  const SearchRadius: int := 250
  /** Feet to world-space Y units. */
  const AltitudeScale: real := 0.001

  function BufferWindow(mode: DataMode): real
  {
    if mode == Local then LocalBufferWindow else GlobalBufferWindow
  }

  function StaleThreshold(mode: DataMode): real
  {
    if mode == Local then LocalStaleThreshold else GlobalStaleThreshold
  }

  function DefaultProviders(): seq<Provider>
  {
    [Provider("airplanes.live", 0), Provider("adsb.lol", 0)]
  }

  type Buffer = map<string, seq<BufferEntry>>

  // ---------------------------------------------------------------------
  // Specification of one buffer update
  // ---------------------------------------------------------------------

  function Hexes(batch: seq<AircraftModel>): set<string>
  {
    set ac | ac in batch :: ac.hex
  }

  /** Occurrences of `hex` in the batch. */
  function Occurrences(batch: seq<AircraftModel>, hex: string): nat
  {
    if batch == [] then 0
    else Occurrences(batch[..|batch| - 1], hex) + (if batch[|batch| - 1].hex == hex then 1 else 0)
  }

  /** Position of the last record of `hex` in the batch, or -1 when there is none. */
  function LastOccurrence(batch: seq<AircraftModel>, hex: string): (j: int)
    ensures -1 <= j < |batch|
    ensures j >= 0 ==> batch[j].hex == hex
    ensures forall k :: j < k < |batch| ==> batch[k].hex != hex
  {
    if batch == [] then -1
    else if batch[|batch| - 1].hex == hex then |batch| - 1
    else LastOccurrence(batch[..|batch| - 1], hex)
  }

  /** The buffer after appending one timestamped record. */
  function AddEntry(buf: Buffer, ac: AircraftModel, now: real): Buffer
  {
    buf[ac.hex := (if ac.hex in buf then buf[ac.hex] else []) + [BufferEntry(now, ac)]]
  }

  /** The buffer after the append loop over the whole batch. */
  function AppendBatch(buf: Buffer, batch: seq<AircraftModel>, now: real): Buffer
  {
    if batch == [] then buf
    else AddEntry(AppendBatch(buf, batch[..|batch| - 1], now), batch[|batch| - 1], now)
  }

  /** `lastSeen` after the append loop. */
  function MarkSeen(seen: map<string, real>, batch: seq<AircraftModel>, now: real): map<string, real>
  {
    if batch == [] then seen
    else MarkSeen(seen, batch[..|batch| - 1], now)[batch[|batch| - 1].hex := now]
  }

  /** `entries.filter { now - $0.timestamp <= window }`. */
  function Recent(entries: seq<BufferEntry>, now: real, window: real): (r: seq<BufferEntry>)
    ensures |r| <= |entries|
    ensures forall e :: e in r <==> e in entries && now - e.timestamp <= window
  {
    if entries == [] then []
    else (if now - entries[0].timestamp <= window then [entries[0]] else []) + Recent(entries[1..], now, window)
  }

  /** Whether the trim pass removes `hex`: nothing recent left, or not seen for longer than the threshold. */
  predicate Evicted(buf: Buffer, seen: map<string, real>, hex: string, now: real, window: real, stale: real)
    requires hex in buf
  {
    Recent(buf[hex], now, window) == [] || (hex in seen && now - seen[hex] > stale)
  }

  /** The buffer after the trim-and-evict pass. */
  function Trimmed(buf: Buffer, seen: map<string, real>, now: real, window: real, stale: real): Buffer
  {
    map h | h in buf && !Evicted(buf, seen, h, now, window, stale) :: Recent(buf[h], now, window)
  }

  predicate Chronological(entries: seq<BufferEntry>)
  {
    forall i, j :: 0 <= i < j < |entries| ==> entries[i].timestamp <= entries[j].timestamp
  }

  // ---------------------------------------------------------------------
  // Properties of the buffer update
  // ---------------------------------------------------------------------

  /** A hex occurs in the batch exactly when it is one of the batch's hexes. */
  lemma {:induction false} OccursIn(batch: seq<AircraftModel>, hex: string)
    ensures Occurrences(batch, hex) > 0 <==> hex in Hexes(batch)
  {
    if batch != [] {
      var init := batch[..|batch| - 1];
      OccursIn(init, hex);
      assert Hexes(batch) == Hexes(init) + {batch[|batch| - 1].hex} by {
        assert batch == init + [batch[|batch| - 1]];
      }
    }
  }

  /**
   * Appending the batch: the keys grow by the batch hexes; a hex's old list
   * is kept as a prefix and followed by one entry stamped `now` per
   * occurrence in the batch, the newest being its last occurrence.
   */
  lemma {:induction false} AppendBatchAt(buf: Buffer, batch: seq<AircraftModel>, now: real, hex: string)
    ensures var r := AppendBatch(buf, batch, now);
      var before := if hex in buf then buf[hex] else [];
      (hex in r <==> hex in buf || hex in Hexes(batch)) &&
      (hex in r ==>
        |r[hex]| == |before| + Occurrences(batch, hex) &&
        r[hex][..|before|] == before &&
        (forall k :: |before| <= k < |r[hex]| ==> r[hex][k].timestamp == now && r[hex][k].data.hex == hex))
  {
    if batch != [] {
      var init := batch[..|batch| - 1];
      var ac := batch[|batch| - 1];
      AppendBatchAt(buf, init, now, hex);
      assert Hexes(batch) == Hexes(init) + {ac.hex} by {
        assert batch == init + [ac];
      }
      var r0 := AppendBatch(buf, init, now);
      var before := if hex in buf then buf[hex] else [];
      var r := AppendBatch(buf, batch, now);
      assert batch[..|batch| - 1] == init;
      assert r == AddEntry(r0, ac, now);
      if ac.hex == hex {
        var old0 := if hex in r0 then r0[hex] else [];
        var e := BufferEntry(now, ac);
        assert Occurrences(batch, hex) == Occurrences(init, hex) + 1;
        assert hex in r0 ==> |old0| >= |before| && old0[..|before|] == before;
        OccursIn(init, hex);
        assert !(hex in r0) ==> before == [] && Occurrences(init, hex) == 0;
        assert r[hex] == old0 + [e];
        assert (old0 + [e])[..|before|] == old0[..|before|];
        assert forall k :: 0 <= k < |old0| ==> (old0 + [e])[k] == old0[k];
      } else {
        assert Occurrences(batch, hex) == Occurrences(init, hex);
        assert hex in r0 ==> r[hex] == r0[hex];
      }
    }
  }

  /** A hex of the batch ends its list with its last record of the batch, stamped `now`. */
  lemma {:induction false} AppendBatchLast(buf: Buffer, batch: seq<AircraftModel>, now: real, hex: string)
    ensures var r := AppendBatch(buf, batch, now); var j := LastOccurrence(batch, hex);
      (j >= 0 <==> hex in Hexes(batch)) &&
      (j >= 0 ==> hex in r && |r[hex]| > 0 && r[hex][|r[hex]| - 1] == BufferEntry(now, batch[j]))
  {
    if batch != [] {
      var init := batch[..|batch| - 1];
      var ac := batch[|batch| - 1];
      AppendBatchLast(buf, init, now, hex);
      assert Hexes(batch) == Hexes(init) + {ac.hex} by {
        assert batch == init + [ac];
      }
      var r0 := AppendBatch(buf, init, now);
      var r := AppendBatch(buf, batch, now);
      assert r == AddEntry(r0, ac, now);
      if ac.hex == hex {
        assert LastOccurrence(batch, hex) == |batch| - 1;
        assert r[hex][|r[hex]| - 1] == BufferEntry(now, ac);
      } else {
        assert LastOccurrence(batch, hex) == LastOccurrence(init, hex);
        assert hex in r0 ==> r[hex] == r0[hex];
      }
    }
  }

  /** `lastSeen` after appending: batch hexes map to `now`, every other key keeps its time. */
  lemma {:induction false} MarkSeenAt(seen: map<string, real>, batch: seq<AircraftModel>, now: real, hex: string)
    ensures var r := MarkSeen(seen, batch, now);
      (hex in r <==> hex in seen || hex in Hexes(batch)) &&
      (hex in Hexes(batch) ==> r[hex] == now) &&
      (hex !in Hexes(batch) && hex in seen ==> r[hex] == seen[hex])
  {
    if batch != [] {
      var init := batch[..|batch| - 1];
      MarkSeenAt(seen, init, now, hex);
      assert Hexes(batch) == Hexes(init) + {batch[|batch| - 1].hex} by {
        assert batch == init + [batch[|batch| - 1]];
      }
    }
  }

  /** After an update every stored entry lies within the buffer window and no list is empty. */
  lemma WithinWindow(buf: Buffer, seen: map<string, real>, now: real, window: real, stale: real)
    ensures var r := Trimmed(buf, seen, now, window, stale);
      forall h :: h in r ==> r[h] != [] && forall e :: e in r[h] ==> now - e.timestamp <= window
  {
  }

  /**
   * Every hex of the batch survives the update (windows and thresholds are
   * non-negative) and its newest entry is its last record of the batch,
   * stamped `now`.
   */
  lemma BatchHexesSurvive(buf: Buffer, seen: map<string, real>, batch: seq<AircraftModel>,
                           now: real, window: real, stale: real, hex: string)
    requires window >= 0.0 && stale >= 0.0 && hex in Hexes(batch)
    ensures var r := Trimmed(AppendBatch(buf, batch, now), MarkSeen(seen, batch, now), now, window, stale);
      var j := LastOccurrence(batch, hex);
      hex in r && 0 <= j < |batch| && |r[hex]| > 0 && r[hex][|r[hex]| - 1] == BufferEntry(now, batch[j])
  {
    var a := AppendBatch(buf, batch, now);
    var s := MarkSeen(seen, batch, now);
    AppendBatchLast(buf, batch, now, hex);
    MarkSeenAt(seen, batch, now, hex);
    var j := LastOccurrence(batch, hex);
    assert hex in a && a[hex] != [] && a[hex][|a[hex]| - 1] == BufferEntry(now, batch[j]);
    RecentKeepsLast(a[hex], now, window);
    var kept := Recent(a[hex], now, window);
    assert kept != [] && kept[|kept| - 1] == BufferEntry(now, batch[j]);
    assert hex in s && s[hex] == now;
    assert !Evicted(a, s, hex, now, window, stale);
    var r := Trimmed(a, s, now, window, stale);
    assert hex in r && r[hex] == kept;
  }

  /** Filtering keeps a last element that passes the filter in last position. */
  lemma {:induction false} RecentKeepsLast(entries: seq<BufferEntry>, now: real, window: real)
    requires entries != [] && now - entries[|entries| - 1].timestamp <= window
    ensures var r := Recent(entries, now, window); r != [] && r[|r| - 1] == entries[|entries| - 1]
  {
    if |entries| > 1 {
      RecentKeepsLast(entries[1..], now, window);
    }
  }

  /** A hex not seen for longer than the stale threshold is gone, even if it still has recent samples. */
  lemma StaleEvicted(buf: Buffer, seen: map<string, real>, now: real, window: real, stale: real, hex: string)
    requires hex in seen && now - seen[hex] > stale
    ensures hex !in Trimmed(buf, seen, now, window, stale)
  {
  }

  /** Filtering keeps the order of what it keeps. */
  lemma {:induction false} RecentChronological(entries: seq<BufferEntry>, now: real, window: real)
    requires Chronological(entries)
    ensures Chronological(Recent(entries, now, window))
  {
    if entries != [] {
      RecentChronological(entries[1..], now, window);
      var rest := Recent(entries[1..], now, window);
      forall e | e in rest ensures entries[0].timestamp <= e.timestamp {
        var k :| 0 <= k < |entries[1..]| && entries[1..][k] == e;
        assert entries[k + 1] == e;
      }
    }
  }

  /**
   * With a clock that never goes back (every stored stamp is at most `now`),
   * each history list stays in non-decreasing timestamp order.
   */
  lemma ChronologicalKept(buf: Buffer, seen: map<string, real>, batch: seq<AircraftModel>,
                          now: real, window: real, stale: real)
    requires forall h :: h in buf ==> Chronological(buf[h]) && forall e :: e in buf[h] ==> e.timestamp <= now
    ensures var r := Trimmed(AppendBatch(buf, batch, now), MarkSeen(seen, batch, now), now, window, stale);
      forall h :: h in r ==> Chronological(r[h])
  {
    var a := AppendBatch(buf, batch, now);
    var r := Trimmed(a, MarkSeen(seen, batch, now), now, window, stale);
    forall h | h in a ensures Chronological(a[h]) {
      AppendBatchAt(buf, batch, now, h);
      var before := if h in buf then buf[h] else [];
      forall i, j | 0 <= i < j < |a[h]| ensures a[h][i].timestamp <= a[h][j].timestamp {
        if j < |before| {
          assert a[h][i] == before[i] && a[h][j] == before[j];
        } else if i < |before| {
          assert h in buf && a[h][i] == buf[h][i];
        }
      }
    }
    forall h | h in r ensures Chronological(r[h]) {
      RecentChronological(a[h], now, window);
    }
  }

  // ---------------------------------------------------------------------
  // Provider fallback
  // ---------------------------------------------------------------------

  /** Index of the first provider whose request succeeds, or the number of providers. */
  function FirstSuccess<T>(outcomes: seq<Fetch<T>>): (k: nat)
    ensures k <= |outcomes|
    ensures forall i :: 0 <= i < k ==> outcomes[i].Failed?
    ensures k < |outcomes| ==> outcomes[k].Decoded?
  {
    if outcomes == [] || outcomes[0].Decoded? then 0 else 1 + FirstSuccess(outcomes[1..])
  }

  /** The aircraft a global poll returns: the first success, normalised, or nothing. */
  function GlobalResult(outcomes: seq<Fetch<V2Response>>): seq<AircraftModel>
  {
    var k := FirstSuccess(outcomes);
    if k < |outcomes| then NormalizeV2(outcomes[k].response) else []
  }

  /** The aircraft a local poll returns. */
  function LocalResult(outcome: Fetch<Dump1090Response>): seq<AircraftModel>
  {
    if outcome.Decoded? then NormalizeDump1090(outcome.response) else []
  }

  /** Provider counters after a global poll. */
  function CountersAfter(ps: seq<Provider>, outcomes: seq<Fetch<V2Response>>): (r: seq<Provider>)
    requires |outcomes| == |ps|
    ensures |r| == |ps|
    ensures forall i :: 0 <= i < |ps| ==> r[i].name == ps[i].name
    ensures forall i :: 0 <= i < |ps| && i < FirstSuccess(outcomes) ==> r[i].failCount == ps[i].failCount + 1
    ensures FirstSuccess(outcomes) < |ps| ==> r[FirstSuccess(outcomes)].failCount == 0
    ensures forall i :: FirstSuccess(outcomes) < i < |ps| ==> r[i] == ps[i]
  {
    var k := FirstSuccess(outcomes);
    seq(|ps|, i requires 0 <= i < |ps| =>
      if i < k then ps[i].(failCount := ps[i].failCount + 1)
      else if i == k then ps[i].(failCount := 0)
      else ps[i])
  }

  /** When every provider fails, the poll yields nothing and every counter rises by one. */
  lemma AllProvidersFail(ps: seq<Provider>, outcomes: seq<Fetch<V2Response>>)
    requires |outcomes| == |ps| && forall i :: 0 <= i < |outcomes| ==> outcomes[i].Failed?
    ensures GlobalResult(outcomes) == []
    ensures forall i :: 0 <= i < |ps| ==> CountersAfter(ps, outcomes)[i].failCount == ps[i].failCount + 1
  {
    assert FirstSuccess(outcomes) == |outcomes|;
  }

  // ---------------------------------------------------------------------
  // The polling actor
  // ---------------------------------------------------------------------

  class FlightDataActor {
    var providers: seq<Provider>
    var dataBuffer: Buffer
    var lastSeen: map<string, real>
    var currentMode: DataMode

    /** Both maps track the same aircraft and no history list is empty. */
    ghost predicate Valid()
      reads this
    {
      dataBuffer.Keys == lastSeen.Keys && forall h :: h in dataBuffer ==> dataBuffer[h] != []
    }

    constructor ()
      ensures Valid() && providers == DefaultProviders() && currentMode == Global
      ensures dataBuffer == map[] && lastSeen == map[]
    {
      providers := DefaultProviders();
      dataBuffer := map[];
      lastSeen := map[];
      currentMode := Global;
    }

    /** `startPolling` before its loop starts: the mode is set and the buffer emptied. */
    method StartPolling(mode: DataMode)
      modifies this
      ensures Valid() && currentMode == mode && providers == old(providers)
      ensures dataBuffer == map[] && lastSeen == map[]
    {
      currentMode := mode;
      dataBuffer := map[];
      lastSeen := map[];
    }

    /** `switchMode`: new mode, empty buffer, every provider's counter back to 0. */
    method SwitchMode(mode: DataMode)
      modifies this
      ensures Valid() && currentMode == mode
      ensures dataBuffer == map[] && lastSeen == map[]
      ensures |providers| == |old(providers)|
      ensures forall i :: 0 <= i < |providers| ==> providers[i] == old(providers[i]).(failCount := 0)
    {
      currentMode := mode;
      dataBuffer := map[];
      lastSeen := map[];
      var i := 0;
      while i < |providers|
        invariant 0 <= i <= |providers| == |old(providers)|
        invariant currentMode == mode && dataBuffer == map[] && lastSeen == map[]
        invariant forall j :: 0 <= j < i ==> providers[j] == old(providers[j]).(failCount := 0)
        invariant forall j :: i <= j < |providers| ==> providers[j] == old(providers[j])
      {
        providers := providers[i := providers[i].(failCount := 0)];
        i := i + 1;
      }
    }

    method GetBufferSnapshot() returns (snapshot: Buffer)
      ensures snapshot == dataBuffer
    {
      snapshot := dataBuffer;
    }

    /**
     * `fetchWithFallback`, given the outcome of each request it may make:
     * `remote[i]` for provider i in global mode, `local` in local mode.
     */
    method FetchWithFallback(mode: DataMode, remote: seq<Fetch<V2Response>>, local: Fetch<Dump1090Response>)
      returns (aircraft: seq<AircraftModel>)
      requires |remote| == |providers|
      modifies this`providers
      ensures mode == Local ==> aircraft == LocalResult(local) && providers == old(providers)
      ensures mode == Global ==> aircraft == GlobalResult(remote) && providers == CountersAfter(old(providers), remote)
    {
      if mode == Local {
        aircraft := LocalResult(local);
        return;
      }
      var i := 0;
      while i < |providers|
        invariant 0 <= i <= |providers| == |old(providers)|
        invariant forall j :: 0 <= j < i ==> remote[j].Failed?
        invariant forall j :: 0 <= j < i ==> providers[j] == old(providers[j]).(failCount := old(providers[j]).failCount + 1)
        invariant forall j :: i <= j < |providers| ==> providers[j] == old(providers[j])
      {
        if remote[i].Decoded? {
          providers := providers[i := providers[i].(failCount := 0)];
          assert FirstSuccess(remote) == i;
          ghost var expected := CountersAfter(old(providers), remote);
          assert forall j :: 0 <= j < |providers| ==> providers[j] == expected[j];
          aircraft := NormalizeV2(remote[i].response);
          return;
        }
        providers := providers[i := providers[i].(failCount := providers[i].failCount + 1)];
        i := i + 1;
      }
      assert FirstSuccess(remote) == |remote|;
      ghost var expected := CountersAfter(old(providers), remote);
      assert forall j :: 0 <= j < |providers| ==> providers[j] == expected[j];
      aircraft := [];
    }

    /**
     * `updateBuffer` at time `now`: append every record, then trim each list
     * to the mode's window and evict emptied or stale aircraft from both maps.
     */
    method UpdateBuffer(aircraft: seq<AircraftModel>, now: real)
      requires Valid()
      modifies this
      ensures Valid()
      ensures currentMode == old(currentMode) && providers == old(providers)
      ensures dataBuffer == Trimmed(AppendBatch(old(dataBuffer), aircraft, now), MarkSeen(old(lastSeen), aircraft, now),
                                    now, BufferWindow(currentMode), StaleThreshold(currentMode))
      ensures forall h :: h in lastSeen ==>
        h in MarkSeen(old(lastSeen), aircraft, now) && lastSeen[h] == MarkSeen(old(lastSeen), aircraft, now)[h]
    {
      var window := BufferWindow(currentMode);
      var stale := StaleThreshold(currentMode);
      var buf, seen := AppendAll(dataBuffer, lastSeen, aircraft, now);
      var trimmed0, toRemove := TrimPass(buf, seen, now, window, stale);
      var trimmed, seenOut := RemoveAll(trimmed0, seen, toRemove);
      TrimPassMeetsSpec(buf, seen, now, window, stale, trimmed0, toRemove);
      dataBuffer, lastSeen := trimmed, seenOut;
    }

    /** The append loop of `updateBuffer`. */
    static method AppendAll(buf0: Buffer, seen0: map<string, real>, aircraft: seq<AircraftModel>, now: real)
      returns (buf: Buffer, seen: map<string, real>)
      requires buf0.Keys == seen0.Keys
      ensures buf == AppendBatch(buf0, aircraft, now) && seen == MarkSeen(seen0, aircraft, now)
      ensures buf.Keys == seen.Keys
    {
      buf, seen := buf0, seen0;
      var i := 0;
      while i < |aircraft|
        invariant 0 <= i <= |aircraft|
        invariant buf == AppendBatch(buf0, aircraft[..i], now)
        invariant seen == MarkSeen(seen0, aircraft[..i], now)
      {
        var ac := aircraft[i];
        var entry := BufferEntry(now, ac);
        ghost var prev := buf;
        if ac.hex in buf {
          buf := buf[ac.hex := buf[ac.hex] + [entry]];
        } else {
          buf := buf[ac.hex := [entry]];
          assert [] + [entry] == [entry];
        }
        seen := seen[ac.hex := now];
        assert buf == AddEntry(prev, ac, now);
        assert aircraft[..i + 1][..i] == aircraft[..i] && aircraft[..i + 1][i] == ac;
        i := i + 1;
      }
      assert aircraft[..i] == aircraft;
      forall h ensures h in buf <==> h in seen {
        AppendBatchAt(buf0, aircraft, now, h);
        MarkSeenAt(seen0, aircraft, now, h);
      }
    }

    /** The trim loop of `updateBuffer`: trims every list and collects the hexes to evict. */
    static method TrimPass(buf: Buffer, seen: map<string, real>, now: real, window: real, stale: real)
      returns (trimmed: Buffer, toRemove: set<string>)
      ensures trimmed.Keys == buf.Keys && toRemove <= buf.Keys
      ensures forall h :: h in buf ==>
        (h in toRemove <==> Evicted(buf, seen, h, now, window, stale)) &&
        (h !in toRemove ==> trimmed[h] == Recent(buf[h], now, window))
    {
      trimmed := buf;
      toRemove := {};
      var keys := buf.Keys;
      while keys != {}
        invariant keys <= buf.Keys && trimmed.Keys == buf.Keys
        invariant toRemove <= buf.Keys - keys
        invariant forall h :: h in buf && h !in keys ==>
          (h in toRemove <==> Evicted(buf, seen, h, now, window, stale)) &&
          (h !in toRemove ==> trimmed[h] == Recent(buf[h], now, window))
        decreases keys
      {
        var h :| h in keys;
        var kept := Recent(buf[h], now, window);
        if kept == [] {
          toRemove := toRemove + {h};
        } else {
          trimmed := trimmed[h := kept];
        }
        if h in seen && now - seen[h] > stale {
          toRemove := toRemove + {h};
        }
        keys := keys - {h};
      }
    }

    /** The removal loop of `updateBuffer`. */
    static method RemoveAll(buf0: Buffer, seen0: map<string, real>, toRemove: set<string>)
      returns (buf: Buffer, seen: map<string, real>)
      ensures buf == buf0 - toRemove && seen == seen0 - toRemove
    {
      buf, seen := buf0, seen0;
      var pending := toRemove;
      while pending != {}
        invariant pending <= toRemove
        invariant buf == buf0 - (toRemove - pending)
        invariant seen == seen0 - (toRemove - pending)
        decreases pending
      {
        var h :| h in pending;
        buf := buf - {h};
        seen := seen - {h};
        pending := pending - {h};
      }
    }

    /** `latestAircraft`: the newest record of every aircraft in the buffer. */
    method LatestAircraft() returns (latest: map<string, AircraftModel>)
      ensures latest.Keys == set h | h in dataBuffer && dataBuffer[h] != []
      ensures forall h :: h in latest ==> latest[h] == dataBuffer[h][|dataBuffer[h]| - 1].data
    {
      latest := map[];
      var keys := dataBuffer.Keys;
      while keys != {}
        invariant keys <= dataBuffer.Keys
        invariant latest.Keys == set h | h in dataBuffer && h !in keys && dataBuffer[h] != []
        invariant forall h :: h in latest ==> latest[h] == dataBuffer[h][|dataBuffer[h]| - 1].data
        decreases keys
      {
        var h :| h in keys;
        var entries := dataBuffer[h];
        if entries != [] {
          latest := latest[h := entries[|entries| - 1].data];
        }
        keys := keys - {h};
      }
    }
  }

  /** What the trim loop of `updateBuffer` leaves, once the collected hexes are removed, is `Trimmed`. */
  lemma TrimPassMeetsSpec(buf: Buffer, seen: map<string, real>, now: real, window: real, stale: real,
                          trimmed: Buffer, toRemove: set<string>)
    requires buf.Keys == seen.Keys && trimmed.Keys == buf.Keys && toRemove <= buf.Keys
    requires forall h :: h in buf ==>
      (h in toRemove <==> Evicted(buf, seen, h, now, window, stale)) &&
      (h !in toRemove ==> trimmed[h] == Recent(buf[h], now, window))
    ensures trimmed - toRemove == Trimmed(buf, seen, now, window, stale)
    ensures (trimmed - toRemove).Keys == (seen - toRemove).Keys
    ensures forall h :: h in trimmed - toRemove ==> (trimmed - toRemove)[h] != []
  {
  }

  /** In a valid actor the latest-aircraft map covers exactly the tracked aircraft. */
  lemma LatestCoversTracked(buf: Buffer, seen: map<string, real>)
    requires buf.Keys == seen.Keys && forall h :: h in buf ==> buf[h] != []
    ensures (set h | h in buf && buf[h] != []) == seen.Keys
  {
  }

  // ---------------------------------------------------------------------
  // Interpolation
  // ---------------------------------------------------------------------

  /** `lerp`. */
  function Lerp(a: real, b: real, t: real): (r: real)
    ensures t == 0.0 ==> r == a
    ensures t == 1.0 ==> r == b
    ensures 0.0 <= t <= 1.0 && a <= b ==> a <= r <= b
    ensures 0.0 <= t <= 1.0 && b <= a ==> b <= r <= a
  {
    LerpBetween(a, b, t);
    a + (b - a) * t
  }

  lemma LerpBetween(a: real, b: real, t: real)
    ensures 0.0 <= t <= 1.0 && a <= b ==> 0.0 <= (b - a) * t <= b - a
    ensures 0.0 <= t <= 1.0 && b <= a ==> b - a <= (b - a) * t <= 0.0
  {
    if 0.0 <= t <= 1.0 {
      if a <= b {
        MulNonneg(b - a, t);
        MulNonneg(b - a, 1.0 - t);
      } else {
        MulNonneg(a - b, t);
        MulNonneg(a - b, 1.0 - t);
      }
    }
  }

  lemma MulNonneg(x: real, y: real)
    requires x >= 0.0 && y >= 0.0
    ensures x * y >= 0.0
  {
  }

  /** A whole number of turns. */
  function Turns(k: int): real { 360.0 * k as real }

  /** `x.truncatingRemainder(dividingBy: 360)`: same sign as x, magnitude below 360. */
  function TruncRem360(x: real): (r: real)
    ensures x >= 0.0 ==> 0.0 <= r < 360.0
    ensures x < 0.0 ==> -360.0 < r <= 0.0
    ensures exists k: int :: x == r + Turns(k)
  {
    var y := x / 360.0;
    var q := Trunc(y);
    assert x == 360.0 * y;
    assert x == (x - Turns(q)) + Turns(q);
    x - Turns(q)
  }

  /** An angle folded into [0, 360) as `lerpAngle` does. */
  function Norm360(x: real): (r: real)
    ensures 0.0 <= r < 360.0
    ensures exists k: int :: x == r + Turns(k)
  {
    var m := TruncRem360(x);
    var k: int :| x == m + Turns(k);
    if m < 0.0 then (assert x == (m + 360.0) + Turns(k - 1); m + 360.0) else m
  }

  /** The signed shortest turn from a to b, in [-180, 180]. */
  function ShortestTurn(a: real, b: real): (d: real)
    ensures -180.0 <= d <= 180.0
    ensures exists k: int :: d == Norm360(b) - Norm360(a) + Turns(k)
  {
    var diff := Norm360(b) - Norm360(a);
    if diff > 180.0 then (assert diff - 360.0 == diff + Turns(-1); diff - 360.0)
    else if diff < -180.0 then (assert diff + 360.0 == diff + Turns(1); diff + 360.0)
    else (assert diff == diff + Turns(0); diff)
  }

  /**
   * `lerpAngle`: blends along the shortest arc from a to b.  The result is
   * not folded back, so it lies in [-180, 540).
   */
  function LerpAngle(a: real, b: real, t: real): (r: real)
    ensures t == 0.0 ==> r == Norm360(a)
    ensures 0.0 <= t <= 1.0 ==> -180.0 <= r < 540.0
  {
    var d := ShortestTurn(a, b);
    PartTurn(d, t);
    Norm360(a) + d * t
  }

  /** A fraction of a turn of at most 180 degrees is itself at most 180 degrees. */
  lemma PartTurn(d: real, t: real)
    requires -180.0 <= d <= 180.0
    ensures 0.0 <= t <= 1.0 ==> -180.0 <= d * t <= 180.0
  {
    if 0.0 <= t <= 1.0 {
      if d >= 0.0 {
        MulNonneg(d, t);
        MulNonneg(180.0 - d, t);
        MulNonneg(180.0, 1.0 - t);
      } else {
        MulNonneg(-d, t);
        MulNonneg(180.0 + d, t);
        MulNonneg(180.0, 1.0 - t);
      }
    }
  }

  /** At t = 1 the blend reaches b, up to whole turns. */
  lemma LerpAngleEnd(a: real, b: real)
    ensures exists k: int :: LerpAngle(a, b, 1.0) == Norm360(b) + Turns(k)
  {
    var d := ShortestTurn(a, b);
    var k: int :| d == Norm360(b) - Norm360(a) + Turns(k);
    assert LerpAngle(a, b, 1.0) == Norm360(a) + d;
  }

  /** Halfway from 350 to 10 degrees is 360, not 0. */
  lemma LerpAngleNoRewrap()
    ensures LerpAngle(350.0, 10.0, 0.5) == 360.0
  {
    assert Norm360(350.0) == 350.0 by {
      assert TruncRem360(350.0) == 350.0 by { assert Trunc(350.0 / 360.0) == 0; }
    }
    assert Norm360(10.0) == 10.0 by {
      assert TruncRem360(10.0) == 10.0 by { assert Trunc(10.0 / 360.0) == 0; }
    }
  }

  function Clamp01(x: real): (r: real)
    ensures 0.0 <= r <= 1.0
    ensures 0.0 <= x <= 1.0 ==> r == x
  {
    if x < 0.0 then 0.0 else if x > 1.0 then 1.0 else x
  }

  /** Index of the first entry stamped after `target`, or the length. */
  function FirstLater(entries: seq<BufferEntry>, target: real): (k: nat)
    ensures k <= |entries|
    ensures forall i :: 0 <= i < k ==> entries[i].timestamp <= target
    ensures k < |entries| ==> entries[k].timestamp > target
  {
    if entries == [] || entries[0].timestamp > target then 0 else 1 + FirstLater(entries[1..], target)
  }

  /** Blending factor between the bracketing samples b and a. */
  function Factor(b: BufferEntry, a: BufferEntry, target: real): (t: real)
    ensures 0.0 <= t <= 1.0
    ensures b.timestamp == a.timestamp ==> t == 0.0
    ensures b.timestamp < a.timestamp && b.timestamp <= target <= a.timestamp ==>
      t == (target - b.timestamp) / (a.timestamp - b.timestamp)
  {
    if b.timestamp == a.timestamp then 0.0
    else
      var x := (target - b.timestamp) / (a.timestamp - b.timestamp);
      assert b.timestamp < a.timestamp && b.timestamp <= target <= a.timestamp ==> 0.0 <= x <= 1.0 by {
        if b.timestamp < a.timestamp && b.timestamp <= target <= a.timestamp {
          QuotientInUnit(target - b.timestamp, a.timestamp - b.timestamp);
        }
      }
      Clamp01(x)
  }

  /** The state blended from sample b (before) to sample a (after); metadata comes from a. */
  function Blend(hex: string, b: BufferEntry, a: BufferEntry, target: real,
                 project: (real, real) -> (real, real)): InterpolatedAircraftState
  {
    var t := Factor(b, a, target);
    var lat := Lerp(b.data.lat, a.data.lat, t);
    var lon := Lerp(b.data.lon, a.data.lon, t);
    var alt := Lerp(b.data.altitude, a.data.altitude, t);
    var p := project(lat, lon);
    InterpolatedAircraftState(
      Vec3(p.0, alt * AltitudeScale, p.1),
      Radians(LerpAngle(b.data.track, a.data.track, t)),
      Lerp(b.data.groundSpeed, a.data.groundSpeed, t),
      Lerp(b.data.verticalRate, a.data.verticalRate, t),
      alt,
      Classify(a.data),
      hex,
      a.data.callsign,
      a.data.squawk,
      lat,
      lon)
  }

  /** The bracketing samples: the last one at or before the target and the first one after it. */
  function BeforeSample(entries: seq<BufferEntry>, target: real): BufferEntry
    requires entries != []
  {
    var k := FirstLater(entries, target);
    if k > 0 then entries[k - 1] else entries[k]
  }

  function AfterSample(entries: seq<BufferEntry>, target: real): BufferEntry
    requires entries != []
  {
    var k := FirstLater(entries, target);
    if k < |entries| then entries[k] else entries[k - 1]
  }

  /** The interpolated state of one aircraft at `target`. */
  function Interpolate(hex: string, entries: seq<BufferEntry>, target: real,
                       project: (real, real) -> (real, real)): InterpolatedAircraftState
    requires entries != []
  {
    Blend(hex, BeforeSample(entries, target), AfterSample(entries, target), target, project)
  }

  /** At or after the newest sample, every value is that sample's own. */
  lemma {:induction false} AfterLastSample(hex: string, entries: seq<BufferEntry>, target: real,
                                          project: (real, real) -> (real, real))
    requires entries != [] && target >= entries[|entries| - 1].timestamp && Chronological(entries)
    ensures var s := Interpolate(hex, entries, target, project); var last := entries[|entries| - 1].data;
      s.lat == last.lat && s.lon == last.lon && s.altitude == last.altitude &&
      s.groundSpeed == last.groundSpeed && s.verticalRate == last.verticalRate &&
      s.heading == Radians(Norm360(last.track)) &&
      s.category == Classify(last) && s.callsign == last.callsign && s.squawk == last.squawk
  {
    forall j | 0 <= j < |entries| ensures entries[j].timestamp <= target {
      if j < |entries| - 1 {
        assert entries[j].timestamp <= entries[|entries| - 1].timestamp;
      }
    }
    FirstLaterIs(entries, target, |entries|);
  }

  /** Before the oldest sample, every value is that sample's own. */
  lemma BeforeFirstSample(hex: string, entries: seq<BufferEntry>, target: real,
                          project: (real, real) -> (real, real))
    requires entries != [] && target < entries[0].timestamp
    ensures var s := Interpolate(hex, entries, target, project); var first := entries[0].data;
      s.lat == first.lat && s.lon == first.lon && s.altitude == first.altitude &&
      s.groundSpeed == first.groundSpeed && s.verticalRate == first.verticalRate &&
      s.heading == Radians(Norm360(first.track)) &&
      s.category == Classify(first) && s.callsign == first.callsign && s.squawk == first.squawk
  {
    assert FirstLater(entries, target) == 0;
  }

  /**
   * Between the two samples of a chronological history that bracket the target, the
   * state blends them with t = (target - t_i) / (t_i+1 - t_i), every value
   * lies between theirs, and the metadata comes from the later one.
   */
  lemma {:induction false} BetweenSamples(hex: string, entries: seq<BufferEntry>, i: nat, target: real,
                                         project: (real, real) -> (real, real))
    requires Chronological(entries) && i + 1 < |entries|
    requires entries[i].timestamp <= target < entries[i + 1].timestamp
    ensures BeforeSample(entries, target) == entries[i] && AfterSample(entries, target) == entries[i + 1]
    ensures var s := Interpolate(hex, entries, target, project);
      var b := entries[i].data; var a := entries[i + 1].data;
      var t := (target - entries[i].timestamp) / (entries[i + 1].timestamp - entries[i].timestamp);
      s.lat == Lerp(b.lat, a.lat, t) && s.lon == Lerp(b.lon, a.lon, t) &&
      s.altitude == Lerp(b.altitude, a.altitude, t) &&
      s.groundSpeed == Lerp(b.groundSpeed, a.groundSpeed, t) &&
      s.verticalRate == Lerp(b.verticalRate, a.verticalRate, t) &&
      s.heading == Radians(LerpAngle(b.track, a.track, t)) &&
      (b.altitude <= a.altitude ==> b.altitude <= s.altitude <= a.altitude) &&
      (a.altitude <= b.altitude ==> a.altitude <= s.altitude <= b.altitude) &&
      s.category == Classify(a) && s.callsign == a.callsign && s.squawk == a.squawk
  {
    forall j | 0 <= j < i + 1 ensures entries[j].timestamp <= target {
      if j < i {
        assert entries[j].timestamp <= entries[i].timestamp;
      }
    }
    FirstLaterIs(entries, target, i + 1);
  }

  /** Two reports of one aircraft five seconds apart, turning through north while climbing. */
  function ClimbThroughNorth(): seq<BufferEntry>
  {
    [BufferEntry(0.0, AircraftModel("ABC123", "", 47.0, -122.0, 10000.0, 350.0, 0.0, 0.0, "", "", "", "", 0)),
     BufferEntry(5.0, AircraftModel("ABC123", "", 47.01, -122.01, 11000.0, 10.0, 0.0, 0.0, "", "", "", "", 0))]
  }

  /** From 350 to 10 degrees the shortest arc is 20 degrees through north; 0.4 of it reaches 358. */
  lemma HeadingThroughNorth()
    ensures LerpAngle(350.0, 10.0, 0.4) == 358.0
  {
    assert Norm360(350.0) == 350.0 by {
      assert TruncRem360(350.0) == 350.0 by { assert Trunc(350.0 / 360.0) == 0; }
    }
    assert Norm360(10.0) == 10.0 by {
      assert TruncRem360(10.0) == 10.0 by { assert Trunc(10.0 / 360.0) == 0; }
    }
    assert ShortestTurn(350.0, 10.0) == 20.0;
  }

  /**
   * Rendered at 4 s (2 s into the history, t = 0.4) the altitude is 10400 ft
   * and the heading 358 degrees (in radians), reached through north.
   */
  lemma ClimbThroughNorthMidway(project: (real, real) -> (real, real))
    ensures var s := Interpolate("ABC123", ClimbThroughNorth(), TargetTime(4.0, InterpolationDelay), project);
      s.altitude == 10400.0 && s.heading == Radians(358.0)
  {
    var entries := ClimbThroughNorth();
    BetweenSamples("ABC123", entries, 0, 2.0, project);
    assert Factor(entries[0], entries[1], 2.0) == 0.4;
    HeadingThroughNorth();
  }

  /** Rendered at 7 s the newer report is shown as it is. */
  lemma ClimbThroughNorthArrived(project: (real, real) -> (real, real))
    ensures var s := Interpolate("ABC123", ClimbThroughNorth(), TargetTime(7.0, InterpolationDelay), project);
      s.altitude == 11000.0 && s.heading == Radians(10.0)
  {
    assert Norm360(10.0) == 10.0 by {
      assert TruncRem360(10.0) == 10.0 by { assert Trunc(10.0 / 360.0) == 0; }
    }
    AfterLastSample("ABC123", ClimbThroughNorth(), 5.0, project);
  }

  // ---------------------------------------------------------------------
  // The per-frame manager
  // ---------------------------------------------------------------------

  /** The instant rendered at `renderTime`: `delay` seconds in the past. */
  function TargetTime(renderTime: real, delay: real): real
  {
    renderTime - delay
  }

  /** `states` holds, for exactly the aircraft with samples, their interpolation at `target`. */
  predicate InterpolatesAll(snapshot: Buffer, target: real, project: (real, real) -> (real, real),
                            states: map<string, InterpolatedAircraftState>)
  {
    states.Keys == (set h | h in snapshot && snapshot[h] != []) &&
    forall h :: h in states ==> states[h] == Interpolate(h, snapshot[h], target, project)
  }

  /** The main-thread manager holding the last buffer snapshot. */
  class FlightDataManager {
    var bufferSnapshot: Buffer

    constructor ()
      ensures bufferSnapshot == map[]
    {
      bufferSnapshot := map[];
    }

    /** One turn of the polling loop: take a fresh copy of the actor's buffer. */
    method TakeSnapshot(actor: FlightDataActor)
      modifies this
      ensures bufferSnapshot == actor.dataBuffer
    {
      bufferSnapshot := actor.GetBufferSnapshot();
    }

    /**
     * The two bracketing samples, found by the scan of `interpolatedStates`:
     * `before` is the last entry at or before the target reached before the
     * first later one, `after` that first later entry.
     */
    static method Bracket(entries: seq<BufferEntry>, target: real)
      returns (before: Option<BufferEntry>, after: Option<BufferEntry>)
      ensures var k := FirstLater(entries, target);
        before == (if k > 0 then Some(entries[k - 1]) else None) &&
        after == (if k < |entries| then Some(entries[k]) else None)
    {
      before, after := None, None;
      var i := 0;
      while i < |entries|
        invariant 0 <= i <= |entries|
        invariant forall j :: 0 <= j < i ==> entries[j].timestamp <= target
        invariant before == (if i > 0 then Some(entries[i - 1]) else None)
        invariant after == None
      {
        if entries[i].timestamp <= target {
          before := Some(entries[i]);
        } else {
          after := Some(entries[i]);
          FirstLaterIs(entries, target, i);
          return;
        }
        i := i + 1;
      }
      FirstLaterIs(entries, target, i);
    }

    /**
     * `interpolatedStates(at:)`: one state per aircraft with samples, keyed by
     * hex.  The app always lags by 2 s; `delay` defaults to that.
     */
    method InterpolatedStates(renderTime: real, project: (real, real) -> (real, real),
                              delay: real := InterpolationDelay)
      returns (states: map<string, InterpolatedAircraftState>)
      ensures InterpolatesAll(bufferSnapshot, TargetTime(renderTime, delay), project, states)
    {
      states := InterpolateAll(bufferSnapshot, TargetTime(renderTime, delay), project);
    }

    /** The loop of `interpolatedStates` over a snapshot. */
    static method InterpolateAll(snapshot: Buffer, target: real, project: (real, real) -> (real, real))
      returns (states: map<string, InterpolatedAircraftState>)
      ensures InterpolatesAll(snapshot, target, project, states)
    {
      states := map[];
      var keys := snapshot.Keys;
      while keys != {}
        invariant keys <= snapshot.Keys
        invariant states.Keys == set h | h in snapshot && h !in keys && snapshot[h] != []
        invariant forall h :: h in states ==> states[h] == Interpolate(h, snapshot[h], target, project)
        decreases keys
      {
        var hex :| hex in keys;
        keys := keys - {hex};
        var entries := snapshot[hex];
        if entries == [] {
          continue;
        }
        var state := InterpolateOne(hex, entries, target, project);
        states := states[hex := state];
      }
    }

    /** The body of the per-aircraft loop: bracket, fall back to the other side, blend. */
    static method InterpolateOne(hex: string, entries: seq<BufferEntry>, target: real,
                                 project: (real, real) -> (real, real))
      returns (state: InterpolatedAircraftState)
      requires entries != []
      ensures state == Interpolate(hex, entries, target, project)
    {
      var before, after := Bracket(entries, target);
      var b := if before.Some? then before.value else after.value;
      var a := if after.Some? then after.value else before.value;
      state := Blend(hex, b, a, target, project);
    }
  }

  /** FirstLater is the index where the scan stops. */
  lemma {:induction false} FirstLaterIs(entries: seq<BufferEntry>, target: real, i: nat)
    requires i <= |entries|
    requires forall j :: 0 <= j < i ==> entries[j].timestamp <= target
    requires i < |entries| ==> entries[i].timestamp > target
    ensures FirstLater(entries, target) == i
  {
    if i > 0 {
      FirstLaterIs(entries[1..], target, i - 1);
    }
  }
}
