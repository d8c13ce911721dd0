# AirplaneTracker3D core, modelled in Dafny

AirplaneTracker3D is a macOS flight tracker. It polls ADS-B feeds, either a
local dump1090 receiver or a chain of global providers, and normalises the
aircraft records. It buffers them per ICAO hex and interpolates each aircraft
between samples at a fixed delay behind real time. It draws aircraft, trails,
labels, airports, airspace volumes, a density heatmap and textured map and
terrain tiles in a Metal scene.

This project models the logic under that scene, one Dafny module per Swift file:

- **Decoding and classification.** `Aircraft` covers the altitude value that is
  either a number or "ground". `DataNormalizer` turns feed records into aircraft
  models. `AircraftCategory` classifies by type code, then by callsign and flight
  profile.
- **Flight data.** `FlightData` covers the actor's per-hex buffer: appending a
  batch, trimming the window, evicting stale aircraft and the provider fail-over
  chain. It also covers the manager's interpolation at render time: the bracketing
  samples, the linear blend and the shortest-arc heading blend.
- **Scene state.**
  - `Trails` holds the per-aircraft trail ring and its vertex buffer.
  - `Instances` builds the instance buffer: the cap, the category ranges, and the
    rotor and propeller counts.
  - `Heatmap` accumulates the density grid and applies the zero-cell rule.
- **Labels.** `Labels`, `AirspaceLabels` and `AirportLabels` select the nearest
  labels, fill an atlas slot by slot and keep their text caches.
- **Tiles.**
  - `MapTiles`, `TerrainTiles` and the shared `TileCache` model the LRU caches
    with their pending-request bookkeeping. They also cover the terrain mesh's
    index and sample arithmetic.
  - `Tiles` covers tile coordinates and the visible-tile set.
- **Meshes.**
  - `Airspace` covers altitude parsing, feature filtering, fill and edge mesh
    counts, buffer packing by class, and the re-fetch decision.
  - `EarClip` is the ear-clipping triangulator.
  - `MeshLibrary` is the procedural aircraft geometry.
- **View state.**
  - `Themes` covers the theme cycle, the colour tables and the tile URLs.
  - `Statistics` is the rolling sample window.
  - `AirportSearch` covers text search and nearby airports.
  - `FlyTo` covers the fly-to animation and the orbit camera's distance clamp.

**How the model is built.**

- Objects that the source updates in place are classes with `modifies` clauses.
- Each loop is a method proved against a specification function. The properties
  the source relies on are lemmas about those functions.
- Floating point is modelled as `real`.
- `sqrt`, the trigonometric functions, the map projection, the clock and
  randomness cannot be expressed exactly over the reals. The operations that use
  them take them as function parameters.
- Network and file outcomes are parameters too: a decoded response or a failure,
  a decoded airport list or none.

**Heading blends.**

- **Through north.** `lerpAngle` blends along the shortest arc. From 350° to 10°
  at t = 0.4 it gives 350 + 20 · 0.4 = 358° (`FlightData.HeadingThroughNorth`,
  `FlightData.ClimbThroughNorthMidway`).
- **No re-wrap.** `lerpAngle` does not fold its result back into [0, 360). From
  350° to 10° at t = 0.5 it gives 360°, not 0° (`FlightData.LerpAngleNoRewrap`).

## Model

| member | source | states |
|---|---|---|
| `Aircraft.DecodeAltitude` | AirplaneTracker3D/Models/AircraftModel.swift:11-20 | decoding yields `.ground` iff the value is the string "ground"; whatever `decode(Int.self)` accepts becomes those feet; a non-zero feet value only comes from that number |
| `Aircraft.AsInt` | AirplaneTracker3D/Models/AircraftModel.swift:13 | `decode(Int.self)` succeeds exactly on an integer in the 64-bit range or an integral number such as 35000.0 in that range, and gives that number |
| `Aircraft.EncodeAltitude` | AirplaneTracker3D/Models/AircraftModel.swift:22-30 | encoding always writes an integer or a string |
| `Aircraft.DecodeEncode` | AirplaneTracker3D/Models/AircraftModel.swift:11-30 | decode(encode(v)) == v for every altitude value |
| `Aircraft.IntegralDoubleDecodes` | AirplaneTracker3D/Models/AircraftModel.swift:11-14 | a number written with a zero fraction decodes to the same feet as the plain integer |
| `Aircraft.DecodeFallback` | AirplaneTracker3D/Models/AircraftModel.swift:11-19 | a value that is not "ground" and that `decode(Int.self)` rejects (another type, a fractional number, an integer outside 64 bits) decodes to 0 ft, so decoding never fails |
| `Aircraft.AsFeet` | AirplaneTracker3D/Models/AircraftModel.swift:33-38 | ground is 0 ft, feet(n) is n |
| `DataNormalizer.V2Altitude` | AirplaneTracker3D/DataLayer/DataNormalizer.swift:20 | a present barometric altitude gives its feet (ground gives 0 even when a geometric altitude exists), else the geometric altitude, else 0 |
| `DataNormalizer.V2VerticalRate` | AirplaneTracker3D/DataLayer/DataNormalizer.swift:23 | barometric rate, else geometric rate, else 0 |
| `DataNormalizer.V2List` | AirplaneTracker3D/DataLayer/DataNormalizer.swift:10-30 | the output is never longer than the input |
| `DataNormalizer.Dump1090List` | AirplaneTracker3D/DataLayer/DataNormalizer.swift:38-58 | the output is never longer than the input |
| `DataNormalizer.NormalizeV2` | AirplaneTracker3D/DataLayer/DataNormalizer.swift:8-31 | an absent aircraft list gives []; otherwise at most one record per input record |
| `DataNormalizer.NormalizeDump1090` | AirplaneTracker3D/DataLayer/DataNormalizer.swift:36-59 | an absent aircraft list gives []; otherwise at most one record per input record |
| `DataNormalizer.V2KeepsExactlyUsable` | AirplaneTracker3D/DataLayer/DataNormalizer.swift:10-30 | a V2 record is kept iff hex, lat and lon are present; kept records keep input order and copy hex/lat/lon unchanged |
| `DataNormalizer.Dump1090KeepsExactlyUsable` | AirplaneTracker3D/DataLayer/DataNormalizer.swift:38-58 | a dump1090 record is kept iff hex, lat and lon are present; kept records keep input order and copy hex/lat/lon unchanged |
| `DataNormalizer.Dump1090Defaults` | AirplaneTracker3D/DataLayer/DataNormalizer.swift:43-57 | ground speed comes from `speed`, vertical rate from `vert_rate`, a missing or ground altitude is 0, and category/registration/type/flags are always empty or 0 |
| `Text.Trim` | AirplaneTracker3D/DataLayer/DataNormalizer.swift:17 | the result is the slice of the input between its leading and trailing blanks: everything cut off is blank, and the result is empty or starts and ends with a non-blank; it is empty exactly when the input is all blank |
| `AircraftCategory.Classify` | AirplaneTracker3D/Models/AircraftCategory.swift:18-86 | the military flag decides first, then a decisive emitter code, then a matching type prefix, then the callsign/altitude/speed heuristics |
| `AircraftCategory.MilitaryFlagOverrides` | AirplaneTracker3D/Models/AircraftCategory.swift:20 | bit 0 of dbFlags gives military whatever the other fields |
| `AircraftCategory.EmitterOverridesRest` | AirplaneTracker3D/Models/AircraftCategory.swift:23-32 | a decisive emitter code overrides type code, callsign, altitude and speed |
| `AircraftCategory.TypeOverridesHeuristics` | AirplaneTracker3D/Models/AircraftCategory.swift:36-51 | a matching type prefix overrides callsign, altitude and speed |
| `AircraftCategory.UndecisiveCodesFallThrough` | AirplaneTracker3D/Models/AircraftCategory.swift:32 | "", A0 and C codes fall through to the later levels |
| `AircraftCategory.HelicopterTypesFirst` | AirplaneTracker3D/Models/AircraftCategory.swift:39-50 | without the military flag or a decisive emitter code, any type code whose upper-cased form starts with a helicopter prefix classifies as helicopter |
| `AircraftCategory.CarriersAreNotMilitary` | AirplaneTracker3D/Models/AircraftCategory.swift:64-85 | no callsign starts with both a long-haul carrier prefix and a military prefix |
| `AircraftCategory.RegionalBeforeWidebodyCarriers` | AirplaneTracker3D/Models/AircraftCategory.swift:59-85 | when flag, emitter and type code do not decide, a non-military callsign between 10000 and 30000 ft below 400 kt is regional even if it is a carrier's; from 30000 ft a carrier callsign is widebody |
| `AircraftCategory.NNumberNotMilitary` | AirplaneTracker3D/Models/AircraftCategory.swift:59-70 | an "N" + digit callsign never matches a military callsign prefix |
| `AircraftCategory.NNumberHeuristic` | AirplaneTracker3D/Models/AircraftCategory.swift:59-76 | for every "N" + ASCII digit callsign: below 3000 ft and 150 kt the heuristic says helicopter; otherwise, below 10000 ft and 200 kt, small |
| `FlightData.Recent` | AirplaneTracker3D/DataLayer/FlightDataActor.swift:185 | the trim keeps exactly the entries within the window |
| `FlightData.AppendBatchAt` | AirplaneTracker3D/DataLayer/FlightDataActor.swift:171-177 | each batch occurrence appends one entry stamped `now` after the hex's old list, and batch hexes become keys |
| `FlightData.AppendBatchLast` | AirplaneTracker3D/DataLayer/FlightDataActor.swift:171-177 | a batch hex's newest entry is its last record of the batch, stamped `now` |
| `FlightData.OccursIn` | AirplaneTracker3D/DataLayer/FlightDataActor.swift:171-177 | a hex occurs in a batch at least once exactly when it is one of the batch's hexes |
| `FlightData.MarkSeenAt` | AirplaneTracker3D/DataLayer/FlightDataActor.swift:178 | batch hexes get lastSeen = now; other keys keep their time |
| `FlightData.WithinWindow` | AirplaneTracker3D/DataLayer/FlightDataActor.swift:181-201 | after an update every entry satisfies now - timestamp <= window and no list is empty |
| `FlightData.BatchHexesSurvive` | AirplaneTracker3D/DataLayer/FlightDataActor.swift:170-201 | every batch hex is present after the update and its newest entry is its last batch record stamped `now` |
| `FlightData.RecentKeepsLast` | AirplaneTracker3D/DataLayer/FlightDataActor.swift:185 | filtering keeps a recent last element last |
| `FlightData.StaleEvicted` | AirplaneTracker3D/DataLayer/FlightDataActor.swift:193-200 | a hex unseen for longer than the stale threshold is removed even if it still has samples |
| `FlightData.RecentChronological` | AirplaneTracker3D/DataLayer/FlightDataActor.swift:185 | filtering keeps timestamp order |
| `FlightData.ChronologicalKept` | AirplaneTracker3D/DataLayer/FlightDataActor.swift:165-201 | with a clock that never goes back, every list stays in non-decreasing timestamp order |
| `FlightData.FirstSuccess` | AirplaneTracker3D/DataLayer/FlightDataActor.swift:135-146 | providers are tried in order; every provider before the first success failed |
| `FlightData.CountersAfter` | AirplaneTracker3D/DataLayer/FlightDataActor.swift:135-147 | earlier providers' counts rise by exactly 1, the first success resets to 0, later providers and all names are untouched |
| `FlightData.AllProvidersFail` | AirplaneTracker3D/DataLayer/FlightDataActor.swift:135-147 | when all providers fail the result is [] and every count rises by 1 |
| `FlightData.FlightDataActor.constructor` | AirplaneTracker3D/DataLayer/FlightDataActor.swift:59-78 | two providers with count 0, empty buffer and lastSeen, global mode |
| `FlightData.FlightDataActor.StartPolling` | AirplaneTracker3D/DataLayer/FlightDataActor.swift:89-92 | sets the mode and empties both maps |
| `FlightData.FlightDataActor.SwitchMode` | AirplaneTracker3D/DataLayer/FlightDataActor.swift:112-119 | empties both maps and resets every provider's count to 0, leaving names and order unchanged |
| `FlightData.FlightDataActor.GetBufferSnapshot` | AirplaneTracker3D/DataLayer/FlightDataActor.swift:123-125 | returns the buffer as it is |
| `FlightData.FlightDataActor.FetchWithFallback` | AirplaneTracker3D/DataLayer/FlightDataActor.swift:130-159 | local mode returns the dump1090 result or [] and leaves the providers alone; global mode returns the first success's normalised result or [] and updates the counters as `CountersAfter` |
| `FlightData.FlightDataActor.UpdateBuffer` | AirplaneTracker3D/DataLayer/FlightDataActor.swift:165-202 | the new buffer is the appended batch trimmed to the mode's window with emptied and stale hexes evicted from both maps; the two key sets stay equal and no list is empty |
| `FlightData.FlightDataActor.AppendAll` | AirplaneTracker3D/DataLayer/FlightDataActor.swift:170-179 | the append loop yields `AppendBatch`/`MarkSeen` and keeps the key sets equal |
| `FlightData.FlightDataActor.TrimPass` | AirplaneTracker3D/DataLayer/FlightDataActor.swift:181-196 | a hex is marked iff nothing recent is left or it is stale; unmarked lists are trimmed |
| `FlightData.FlightDataActor.RemoveAll` | AirplaneTracker3D/DataLayer/FlightDataActor.swift:198-201 | marked hexes leave both maps |
| `FlightData.FlightDataActor.LatestAircraft` | AirplaneTracker3D/DataLayer/FlightDataActor.swift:205-213 | maps exactly the hexes with entries to the data of their last entry |
| `FlightData.TrimPassMeetsSpec` | AirplaneTracker3D/DataLayer/FlightDataActor.swift:181-201 | the trim loop followed by the removals equals `Trimmed`, keeps the key sets equal and leaves no empty list |
| `FlightData.LatestCoversTracked` | AirplaneTracker3D/DataLayer/FlightDataActor.swift:205-213 | in a valid buffer `latestAircraft` covers exactly the lastSeen keys |
| `FlightData.Lerp` | AirplaneTracker3D/DataLayer/FlightDataActor.swift:345-347 | t = 0 gives a, t = 1 gives b, and t in [0,1] stays between a and b |
| `FlightData.TruncRem360` | AirplaneTracker3D/DataLayer/FlightDataActor.swift:353-354 | the truncating remainder has the sign of x, magnitude below 360, and differs from x by whole turns |
| `FlightData.Norm360` | AirplaneTracker3D/DataLayer/FlightDataActor.swift:353-356 | the folded angle is in [0,360) and differs from the input by whole turns |
| `FlightData.ShortestTurn` | AirplaneTracker3D/DataLayer/FlightDataActor.swift:357-359 | the signed difference is in [-180,180] and equals b - a modulo whole turns |
| `FlightData.LerpAngle` | AirplaneTracker3D/DataLayer/FlightDataActor.swift:352-361 | t = 0 gives the folded a, and t in [0,1] gives a value in [-180,540) |
| `FlightData.LerpAngleEnd` | AirplaneTracker3D/DataLayer/FlightDataActor.swift:352-361 | t = 1 gives b up to whole turns |
| `FlightData.LerpAngleNoRewrap` | AirplaneTracker3D/DataLayer/FlightDataActor.swift:360 | 350 to 10 at t = 0.5 gives 360 because the result is not re-wrapped |
| `FlightData.Clamp01` | AirplaneTracker3D/DataLayer/FlightDataActor.swift:304 | the result is in [0,1] and values already there are unchanged |
| `FlightData.FirstLater` | AirplaneTracker3D/DataLayer/FlightDataActor.swift:288-295 | every entry before the index is at or before the target and the entry at the index is later |
| `FlightData.Factor` | AirplaneTracker3D/DataLayer/FlightDataActor.swift:301-305 | t is in [0,1], 0 for equal timestamps, and (target - b)/(a - b) when the target lies between them |
| `FlightData.AfterLastSample` | AirplaneTracker3D/DataLayer/FlightDataActor.swift:277-335 | a target at or after the last sample yields that sample's position, altitude, speed, rate, heading (in radians) and metadata |
| `FlightData.BeforeFirstSample` | AirplaneTracker3D/DataLayer/FlightDataActor.swift:277-335 | a target before the first sample yields that sample's values |
| `FlightData.BetweenSamples` | AirplaneTracker3D/DataLayer/FlightDataActor.swift:284-335 | in a chronological history, for samples i, i+1 with t_i <= target < t_i+1 the bracket is those two; lat, lon, altitude, speed and rate blend with t = (target - t_i)/(t_i+1 - t_i), the heading is the angle blend in radians, altitude stays between theirs, and the metadata comes from the later sample |
| `FlightData.FlightDataManager.constructor` | AirplaneTracker3D/DataLayer/FlightDataActor.swift:233 | the snapshot starts empty |
| `FlightData.FlightDataManager.TakeSnapshot` | AirplaneTracker3D/DataLayer/FlightDataActor.swift:249-252 | the manager's snapshot becomes the actor's buffer |
| `FlightData.FlightDataManager.Bracket` | AirplaneTracker3D/DataLayer/FlightDataActor.swift:285-295 | `before` is the last entry at or before the target, `after` the first later entry, each absent when there is none |
| `FlightData.FlightDataManager.InterpolatedStates` | AirplaneTracker3D/DataLayer/FlightDataActor.swift:277-340 | one state per hex with samples, each the interpolation at renderTime - delay (delay defaults to the hard-coded 2.0) |
| `FlightData.FlightDataManager.InterpolateAll` | AirplaneTracker3D/DataLayer/FlightDataActor.swift:279-339 | the loop over the snapshot yields exactly one `Interpolate` state per hex with samples |
| `FlightData.FlightDataManager.InterpolateOne` | AirplaneTracker3D/DataLayer/FlightDataActor.swift:285-335 | bracketing, substituting a missing side by the other and blending gives `Interpolate` |
| `FlightData.HeadingThroughNorth` | AirplaneTracker3D/DataLayer/FlightDataActor.swift:352-361 | blending 350 to 10 degrees at 0.4 turns 20 degrees through north and gives 358 |
| `FlightData.ClimbThroughNorthMidway` | AirplaneTracker3D/DataLayer/FlightDataActor.swift:277-361 | samples (alt 10000, track 350) at 0 s and (11000, 10) at 5 s, rendered at 4 s, give altitude 10400 and heading 358 degrees in radians |
| `FlightData.ClimbThroughNorthArrived` | AirplaneTracker3D/DataLayer/FlightDataActor.swift:277-335 | the same samples rendered at 7 s give the newer report's altitude 11000 and heading 10 degrees in radians |
| `FlightData.FirstLaterIs` | AirplaneTracker3D/DataLayer/FlightDataActor.swift:288-295 | the index where the scan stops is `FirstLater` |
| `Trails.Append` | AirplaneTracker3D/Rendering/TrailManager.swift:24-29 | the cap is kept, the count is min(old count + 1, cap), and the points are the newest of old points + [p] |
| `Trails.AppendKeepsNewest` | AirplaneTracker3D/Rendering/TrailManager.swift:24-29 | the appended point is the newest, and a buffer within its cap stays within it |
| `Trails.ClampTrailLength` | AirplaneTracker3D/Rendering/TrailManager.swift:35-39 | the stored length is in [50, 4000]; in-range values are kept, others go to the nearer bound |
| `Trails.TrailAlpha` | AirplaneTracker3D/Rendering/TrailManager.swift:268-275 | alpha is 0.3 for the oldest point, 1.0 for the newest and always in [0.3, 1.0]; the equal steps between are `Trails.TrailAlphaStep` |
| `Trails.TrailAlphaStep` | AirplaneTracker3D/Rendering/TrailManager.swift:268-274 | alpha rises by the same step 0.7/(n-1) from each point to the next, so with the end values it is 0.3 + 0.7 i/(n-1) |
| `Trails.AltitudeColor` | AirplaneTracker3D/Rendering/TrailManager.swift:248-278 | the colour's alpha is the trail alpha of the point |
| `Trails.PointColor` | AirplaneTracker3D/Rendering/TrailManager.swift:187-194 | with or without a tint, a point's alpha is its trail alpha |
| `Trails.Strip` | AirplaneTracker3D/Rendering/TrailManager.swift:180-219 | k points yield exactly 2k vertices |
| `Trails.TrailStep` | AirplaneTracker3D/Rendering/TrailManager.swift:151-219 | one trail never pushes the vertex count past capacity and never removes vertices |
| `Trails.Flattened` | AirplaneTracker3D/Rendering/TrailManager.swift:143-222 | the flattened vertex count never exceeds buffer capacity |
| `Trails.FlattenedCount` | AirplaneTracker3D/Rendering/TrailManager.swift:151-219 | when everything fits, each drawn trail gives two vertices per point, trails after the first add a two-vertex join, and trails with fewer than 2 points add nothing |
| `Trails.DrawnNeeds` | AirplaneTracker3D/Rendering/TrailManager.swift:153 | every drawn trail needs at least six vertices; nothing is needed iff nothing is drawn |
| `Trails.StripSides` | AirplaneTracker3D/Rendering/TrailManager.swift:196-218 | vertex v of a strip is point v/2 on side +1 for even v and -1 for odd v |
| `Trails.HexSet` | AirplaneTracker3D/Rendering/TrailManager.swift:101-104 | every state's hex is in the present set |
| `Trails.TrackOneFrame` | AirplaneTracker3D/Rendering/TrailManager.swift:107-125 | one state touches only its own trail and counter; a new trail takes the current cap, an existing one keeps its own |
| `Trails.TrackAllKeys` | AirplaneTracker3D/Rendering/TrailManager.swift:106-125 | step 1 keeps every old trail, gives every state's hex a trail and leaves absent hexes untouched |
| `Trails.KeysStep` | AirplaneTracker3D/Rendering/TrailManager.swift:106-125 | the inductive step of `TrackAllKeys` on the maps alone |
| `Trails.TrackAllCaps` | AirplaneTracker3D/Rendering/TrailManager.swift:108-110 | a trail created in this update has the current `maxTrailLength`; existing trails keep their cap |
| `Trails.MissKeysWithinTrails` | AirplaneTracker3D/Rendering/TrailManager.swift:127-141 | every miss counter stays attached to a trail |
| `Trails.PresentNeverDropped` | AirplaneTracker3D/Rendering/TrailManager.swift:129-141 | a hex present in `states` is never removed and its counter is not bumped |
| `Trails.AbsentCounted` | AirplaneTracker3D/Rendering/TrailManager.swift:129-141 | an absent hex's counter rises by one and it is removed iff that reaches 3 |
| `Trails.ThreeMissesDrop` | AirplaneTracker3D/Rendering/TrailManager.swift:127-141 | a trail last seen with counter 0 survives two absent updates and is dropped on the third |
| `Trails.TrailManager.constructor` | AirplaneTracker3D/Rendering/TrailManager.swift:35-61 | length 500, no trails, no counters, no vertices |
| `Trails.TrailManager.SetMaxTrailLength` | AirplaneTracker3D/Rendering/TrailManager.swift:35-39 | stores the clamped value |
| `Trails.TrailManager.Update` | AirplaneTracker3D/Rendering/TrailManager.swift:99-223 | the new trails and counters are step 1 followed by step 2, and the vertex buffer is the flattening of every trail, each key listed exactly once in the order the dictionary was walked |
| `Trails.TrailManager.Track` | AirplaneTracker3D/Rendering/TrailManager.swift:100-141 | steps 1 and 2: the present set, appended points and miss counters |
| `Trails.TrailManager.Flatten` | AirplaneTracker3D/Rendering/TrailManager.swift:143-222 | step 3: the vertex buffer is `Flattened` over an order that lists every trail's key exactly once |
| `Trails.TrailManager.TrackAndCount` | AirplaneTracker3D/Rendering/TrailManager.swift:106-141 | steps 1 and 2 give `TrailsAfterMisses`/`MissesAfterMisses` of `TrackAll`, with counters attached to trails |
| `Trails.TrailManager.AppendPoints` | AirplaneTracker3D/Rendering/TrailManager.swift:106-125 | the append loop computes `TrackAll` |
| `Trails.TrailManager.TrackState` | AirplaneTracker3D/Rendering/TrailManager.swift:108-124 | the loop body: create if new, skip if closer than 0.1 to the last point, else append and reset the counter |
| `Trails.TrailManager.CountMisses` | AirplaneTracker3D/Rendering/TrailManager.swift:127-141 | the counting and removal loops give `TrailsAfterMisses`/`MissesAfterMisses` |
| `Trails.TrailManager.CountPass` | AirplaneTracker3D/Rendering/TrailManager.swift:128-137 | every absent trail's counter is bumped and those reaching 3 are collected |
| `Trails.TrailManager.RemovePass` | AirplaneTracker3D/Rendering/TrailManager.swift:138-141 | collected hexes leave both maps |
| `Trails.TrailManager.FlattenAll` | AirplaneTracker3D/Rendering/TrailManager.swift:148-220 | the order lists every key of the dictionary exactly once, and the buffer is `Flattened` over that order, within capacity |
| `Trails.TrailManager.EmitTrail` | AirplaneTracker3D/Rendering/TrailManager.swift:152-219 | one trail: skipped below 2 points, else an optional join and the points that fit |
| `Trails.TrailManager.EmitPoints` | AirplaneTracker3D/Rendering/TrailManager.swift:181-219 | emits the strip of the first min(n, room/2) points |
| `Trails.StripSnoc` | AirplaneTracker3D/Rendering/TrailManager.swift:181-219 | one more point appends its +1 and -1 vertices to the strip |
| `Trails.OrderSnoc` | AirplaneTracker3D/Rendering/TrailManager.swift:151 | enumerating one more key keeps the order duplicate-free and within the dictionary |
| `Trails.FlattenSnoc` | AirplaneTracker3D/Rendering/TrailManager.swift:151-220 | flattening one more trail is one more loop step |
| `Trails.TrailPoints` | AirplaneTracker3D/Rendering/TrailManager.swift:151-152 | one point list per enumerated hex |
| `Labels.LabelText` | AirplaneTracker3D/Rendering/LabelManager.swift:246-248 | the text is the callsign (the hex when the callsign is empty), a newline, decimal text that reads back as the altitude truncated to whole feet, and "ft" |
| `Geometry.Fade` | AirplaneTracker3D/Rendering/LabelManager.swift:236-241 | the distance fade is 1 up to the fade distance, in [0,1] up to the maximum and 0 at the maximum |
| `Geometry.FadeLinear` | AirplaneTracker3D/Rendering/LabelManager.swift:236-241 | past the fade distance it falls by 1/(max - fade) per unit of distance, which with the value 1 at the fade distance fixes it as 1 - (d - fade)/(max - fade) |
| `Labels.LabelOpacity` | AirplaneTracker3D/Rendering/LabelManager.swift:236-241 | 1 up to the fade distance 150, then 1 - (d - 150)/150: within [0,1] up to the maximum 300 and 0 there |
| `Labels.LabelOpacityLinear` | AirplaneTracker3D/Rendering/LabelManager.swift:236-241 | from 150 on, opacity falls by 1/150 per unit of distance |
| `Labels.FirstFree` | AirplaneTracker3D/Rendering/LabelManager.swift:185-191 | the lowest-index free slot; none iff every slot is used |
| `Labels.RetextPreserves` | AirplaneTracker3D/Rendering/LabelManager.swift:251-256 | re-texting a cached label in its own slot keeps cached slots distinct and exactly the used ones |
| `Labels.ClaimPreserves` | AirplaneTracker3D/Rendering/LabelManager.swift:258-261 | claiming a free slot for a new hex keeps cached slots distinct and exactly the used ones |
| `Labels.PlacePreserves` | AirplaneTracker3D/Rendering/LabelManager.swift:224-309 | one aircraft keeps the slot/cache correspondence and every cached hex's slot |
| `Labels.PlaceLabels` | AirplaneTracker3D/Rendering/LabelManager.swift:243-265 | a visible aircraft becomes active; a cached hex keeps its slot with the new text, a new hex gets the lowest free slot, and a full atlas skips the label |
| `Labels.PlaceAllCounts` | AirplaneTracker3D/Rendering/LabelManager.swift:224-309 | at most 256 labels per update and exactly two altitude-line vertices per label |
| `Labels.PlaceAllPreserves` | AirplaneTracker3D/Rendering/LabelManager.swift:224-309 | the whole loop keeps distinct cached slots, each marked used, and never drops a cached hex |
| `Labels.FullFrameStaysPut` | AirplaneTracker3D/Rendering/LabelManager.swift:225 | once 256 labels are written the remaining aircraft change nothing |
| `Labels.SlotsAfterStale` | AirplaneTracker3D/Rendering/LabelManager.swift:326-329 | the allocator keeps its length when stale slots are freed |
| `Labels.FreedSlotsAdd` | AirplaneTracker3D/Rendering/LabelManager.swift:326-329 | freeing one more label adds exactly its slot |
| `Labels.StalePreserves` | AirplaneTracker3D/Rendering/LabelManager.swift:314-332 | dropping stale labels keeps the slot/cache correspondence |
| `Labels.StaleCounting` | AirplaneTracker3D/Rendering/LabelManager.swift:315-325 | an active hex's count resets to 0 and it stays; an inactive one is counted up and dropped iff the count passes 180 |
| `Labels.LabelManager.constructor` | AirplaneTracker3D/Rendering/LabelManager.swift:69-70 | every slot free, no cached labels |
| `Labels.LabelManager.AllocateSlot` | AirplaneTracker3D/Rendering/LabelManager.swift:184-192 | returns the lowest free slot and marks it used, or nil without change when all 256 are used |
| `Labels.LabelManager.FreeSlot` | AirplaneTracker3D/Rendering/LabelManager.swift:195-198 | ignores out-of-range slots and otherwise marks the slot free |
| `Labels.LabelManager.InvalidateCache` | AirplaneTracker3D/Rendering/LabelManager.swift:203-209 | frees every cached slot and leaves the cache and missing counts empty |
| `Labels.LabelManager.Update` | AirplaneTracker3D/Rendering/LabelManager.swift:214-333 | labels, lines, cache, allocator and missing counts are the placement loop followed by the stale pass; at most 256 labels with 2 line vertices each |
| `Labels.LabelManager.PlaceLabels` | AirplaneTracker3D/Rendering/LabelManager.swift:224-309 | the placement loop computes `PlaceAll` and stops once 256 labels are written |
| `Labels.LabelManager.PlaceOne` | AirplaneTracker3D/Rendering/LabelManager.swift:225-308 | the loop body computes `Place` |
| `Labels.LabelManager.RemoveStale` | AirplaneTracker3D/Rendering/LabelManager.swift:314-332 | the stale pass drops stale labels, frees their slots and keeps the correspondence |
| `Labels.LabelManager.RemoveLabels` | AirplaneTracker3D/Rendering/LabelManager.swift:326-332 | each removed label leaves cache and counts and its slot is freed |
| `Labels.LabelManager.CountMissing` | AirplaneTracker3D/Rendering/LabelManager.swift:315-325 | active labels reset to 0, others count up, and those above 180 are collected |
| `AirspaceLabels.SlotUV` | AirplaneTracker3D/Rendering/AirspaceLabelManager.swift:283-287 | a slot's atlas origin lies inside the unit square |
| `AirspaceLabels.SlotsApart` | AirplaneTracker3D/Rendering/AirspaceLabelManager.swift:283-287 | distinct slots have distinct atlas origins |
| `AirspaceLabels.LabelText` | AirplaneTracker3D/Rendering/AirspaceLabelManager.swift:266-267 | the label is the name's prefix of at most 12 characters, the whole name when it fits |
| `AirspaceLabels.Opacity` | AirplaneTracker3D/Rendering/AirspaceLabelManager.swift:294-299 | 1 up to 300, then 1 - (d - 300)/200: between 0 and 1 up to 500 and 0 at 500 |
| `AirspaceLabels.OpacityLinear` | AirplaneTracker3D/Rendering/AirspaceLabelManager.swift:294-299 | from 300 on, opacity falls by 1/200 per unit of distance |
| `AirspaceLabels.NamesSnoc` | AirplaneTracker3D/Rendering/AirspaceLabelManager.swift:208-215 | the names seen grow by the appended feature's name |
| `AirspaceLabels.UniqueFirstByName` | AirplaneTracker3D/Rendering/AirspaceLabelManager.swift:207-215 | deduplication keeps exactly the first feature of each name, in order, with distinct names |
| `AirspaceLabels.Candidates` | AirplaneTracker3D/Rendering/AirspaceLabelManager.swift:227-251 | only features within 500 survive, each carrying its own distance |
| `AirspaceLabels.NearestSorted` | AirplaneTracker3D/Rendering/AirspaceLabelManager.swift:253-255 | the kept labels are sorted by distance and number min(candidates, 60) |
| `AirspaceLabels.NearestFirst` | AirplaneTracker3D/Rendering/AirspaceLabelManager.swift:253-255 | the kept labels are candidates and none left out is nearer than one kept |
| `AirspaceLabels.Write` | AirplaneTracker3D/Rendering/AirspaceLabelManager.swift:272-291 | cached slots are reused, a new text takes the next slot, and the slot table stays a bijection onto 0..nextSlot-1 |
| `AirspaceLabels.WriteAll` | AirplaneTracker3D/Rendering/AirspaceLabelManager.swift:262-312 | the slot table stays valid across the label loop |
| `AirspaceLabels.WriteAllKeepsSlots` | AirplaneTracker3D/Rendering/AirspaceLabelManager.swift:272-291 | cached texts keep their slots and each candidate takes at most one new slot |
| `AirspaceLabels.WriteKeepsSlots` | AirplaneTracker3D/Rendering/AirspaceLabelManager.swift:272-291 | one label write keeps every cached text on its slot and takes at most one new slot |
| `AirspaceLabels.WriteStep` | AirplaneTracker3D/Rendering/AirspaceLabelManager.swift:272-311 | one candidate appends one label, or none only when the atlas is full |
| `AirspaceLabels.WriteAllLabels` | AirplaneTracker3D/Rendering/AirspaceLabelManager.swift:262-312 | earlier labels are kept, at most one label per candidate is added, and one each while slots remain |
| `AirspaceLabels.WriteAllNewTexts` | AirplaneTracker3D/Rendering/AirspaceLabelManager.swift:274-289 | every newly cached text is the label text of some candidate |
| `AirspaceLabels.FrameBounds` | AirplaneTracker3D/Rendering/AirspaceLabelManager.swift:187-315 | one update writes at most 60 labels, stays within 128 slots and keeps every cached slot |
| `AirspaceLabels.AirspaceLabelManager.constructor` | AirplaneTracker3D/Rendering/AirspaceLabelManager.swift:45-48 | empty cache, next slot 0 |
| `AirspaceLabels.AirspaceLabelManager.UpdateTheme` | AirplaneTracker3D/Rendering/AirspaceLabelManager.swift:169-181 | clears the cache and restarts slot allocation at 0 |
| `AirspaceLabels.AirspaceLabelManager.Update` | AirplaneTracker3D/Rendering/AirspaceLabelManager.swift:187-315 | cache, next slot and labels become the frame computed from filter, deduplicate, cull, sort and write |
| `AirspaceLabels.Deduplicate` | AirplaneTracker3D/Rendering/AirspaceLabelManager.swift:207-215 | the loop computes `Unique` |
| `AirspaceLabels.Cull` | AirplaneTracker3D/Rendering/AirspaceLabelManager.swift:224-251 | the loop computes `Candidates` |
| `AirspaceLabels.WriteLabels` | AirplaneTracker3D/Rendering/AirspaceLabelManager.swift:262-312 | the loop computes `WriteAll` |
| `AirspaceLabels.WriteLabel` | AirplaneTracker3D/Rendering/AirspaceLabelManager.swift:272-311 | the loop body computes `Write` |
| `AirportLabels.LabelText` | AirplaneTracker3D/Rendering/AirportLabelManager.swift:180 | the IATA code when present, else the ICAO code |
| `AirportLabels.SlotAt` | AirplaneTracker3D/Rendering/AirportLabelManager.swift:183-187 | a slot's atlas origin lies inside the unit square |
| `AirportLabels.SlotsApart` | AirplaneTracker3D/Rendering/AirportLabelManager.swift:183-187 | distinct slots have distinct atlas origins |
| `AirportLabels.SlotTable` | AirplaneTracker3D/Rendering/AirportLabelManager.swift:159-189 | one slot per airport for the first 512, slot i at column i mod 16, row i div 16 |
| `AirportLabels.SlotTexts` | AirplaneTracker3D/Rendering/AirportLabelManager.swift:176-181 | slot i holds the label text of airport i, for the first 512 |
| `AirportLabels.Opacity` | AirplaneTracker3D/Rendering/AirportLabelManager.swift:291-297 | 1 up to 200, then 1 - (d - 200)/200: between 0 and 1 up to 400 and 0 at 400 |
| `AirportLabels.OpacityLinear` | AirplaneTracker3D/Rendering/AirportLabelManager.swift:291-297 | from 200 on, opacity falls by 1/200 per unit of distance |
| `AirportLabels.InRange` | AirplaneTracker3D/Rendering/AirportLabelManager.swift:271-281 | only airports among the first n within 400, in index order, each with its own distance |
| `AirportLabels.InRangeComplete` | AirplaneTracker3D/Rendering/AirportLabelManager.swift:271-281 | an airport among the first n is listed iff it is within 400 |
| `AirportLabels.NearestFirst` | AirplaneTracker3D/Rendering/AirportLabelManager.swift:284-285 | min(visible, 40) labels are kept, sorted by distance, drawn from the visible ones, none left out nearer than one kept |
| `AirportLabels.Emit` | AirplaneTracker3D/Rendering/AirportLabelManager.swift:288-311 | at most one label per chosen airport |
| `AirportLabels.EmitAll` | AirplaneTracker3D/Rendering/AirportLabelManager.swift:288-311 | when every chosen airport has a slot, each gets its label |
| `AirportLabels.ChosenIndices` | AirplaneTracker3D/Rendering/AirportLabelManager.swift:271-285 | every chosen airport index is among the first n |
| `AirportLabels.FrameCount` | AirplaneTracker3D/Rendering/AirportLabelManager.swift:258-314 | with the slot table built at load, an update writes exactly min(in range, 40) labels |
| `AirportLabels.AirportLabelManager.constructor` | AirplaneTracker3D/Rendering/AirportLabelManager.swift:130-153 | a missing or undecodable list leaves no airports; each airport is placed by the projection at height 0.5 and the atlas is drawn |
| `AirportLabels.AirportLabelManager.RasterizeAllLabels` | AirplaneTracker3D/Rendering/AirportLabelManager.swift:159-189 | the slot table and texts become those of the first 512 airports |
| `AirportLabels.AirportLabelManager.Update` | AirplaneTracker3D/Rendering/AirportLabelManager.swift:258-314 | the labels become the frame of cull, sort, cap and write |
| `AirportLabels.CollectVisible` | AirplaneTracker3D/Rendering/AirportLabelManager.swift:271-281 | the loop computes `InRange` |
| `AirportLabels.WriteLabels` | AirplaneTracker3D/Rendering/AirportLabelManager.swift:288-311 | the loop computes `Emit` |
| `MapTiles.ZoomLevel` | AirplaneTracker3D/Map/MapTileManager.swift:169-181 | the zoom is always between 6 and 12 |
| `MapTiles.ZoomBeyondRange` | AirplaneTracker3D/Map/MapTileManager.swift:178 | distances beyond 1000 or under 10 give the zoom of that end |
| `MapTiles.CloserIsFiner` | AirplaneTracker3D/Map/MapTileManager.swift:167-181 | a closer camera never gets a coarser zoom |
| `MapTiles.MapTileManager.constructor` | AirplaneTracker3D/Map/MapTileManager.swift:13-30 | empty cache, order and pending set, day theme |
| `MapTiles.MapTileManager.TextureFor` | AirplaneTracker3D/Map/MapTileManager.swift:65-90 | a hit returns the texture and moves the tile to the back of the LRU order; a miss not pending marks it pending and requests its URL once; a pending miss changes nothing; the cache invariant is kept |
| `MapTiles.MapTileManager.TouchTile` | AirplaneTracker3D/Map/MapTileManager.swift:73-77 | a hit leaves the order as `Touch` (the tile moved to the back) and keeps the cache invariant |
| `MapTiles.MapTileManager.FetchTile` | AirplaneTracker3D/Map/MapTileManager.swift:95-96 | the request uses the current theme's URL for the tile |
| `MapTiles.MapTileManager.CompleteFetch` | AirplaneTracker3D/Map/MapTileManager.swift:102-162 | the tile leaves the pending set; a throw, a non-200 status, empty data or a loader failure caches nothing; success stores the tile last and evicts the oldest beyond 300 |
| `MapTiles.MapTileManager.ClearCache` | AirplaneTracker3D/Map/MapTileManager.swift:186-192 | cache, order and pending set become empty |
| `MapTiles.MapTileManager.SwitchTheme` | AirplaneTracker3D/Map/MapTileManager.swift:51-54 | the theme changes and nothing cached or pending survives |
| `TileCache.FirstIndex` | AirplaneTracker3D/Map/MapTileManager.swift:74 | the index of the first occurrence of the tile |
| `TileCache.RemoveFirst` | AirplaneTracker3D/Map/MapTileManager.swift:74-75 | removing at the first index drops exactly that occurrence |
| `TileCache.TouchMovesToBack` | AirplaneTracker3D/Map/MapTileManager.swift:73-77 | a hit moves the tile to the back, keeps the others in order, and permutes the list |
| `TileCache.TouchKeepsLru` | AirplaneTracker3D/Map/MapTileManager.swift:72-78 | a hit keeps the order list an exact duplicate-free listing of the cache |
| `TileCache.MoveToBackNoDup` | AirplaneTracker3D/Map/MapTileManager.swift:75-76 | moving one entry of a duplicate-free list to the back keeps it duplicate-free |
| `TileCache.EvictKeepsNewest` | AirplaneTracker3D/Map/MapTileManager.swift:146-150 | eviction keeps the newest entries and removes from the cache exactly what it drops from the order |
| `TileCache.EvictKeepsLru` | AirplaneTracker3D/Map/MapTileManager.swift:146-150 | eviction leaves min(size, max) entries with cache and order in step |
| `TileCache.StoreKeepsLru` | AirplaneTracker3D/Map/MapTileManager.swift:141-155 | storing an uncached tile keeps the invariant and size bound and leaves the tile cached, last in the order |
| `TileCache.StoreCachedDuplicates` | AirplaneTracker3D/Map/MapTileManager.swift:141-150 | storing a tile that is already cached lists it twice in the order |
| `TileCache.EvictOldest` | AirplaneTracker3D/Map/MapTileManager.swift:147-150 | the eviction loop computes `Evict` |
| `TerrainTiles.TerrariumRange` | AirplaneTracker3D/Rendering/TerrainTileManager.swift:181 | a Terrarium height from three bytes lies in [-32768, 32768) metres |
| `TerrainTiles.Decode` | AirplaneTracker3D/Rendering/TerrainTileManager.swift:146-185 | heights come back iff the image is 256x256: 65536 of them, each in the Terrarium range |
| `TerrainTiles.DecodeTerrainPNG` | AirplaneTracker3D/Rendering/TerrainTileManager.swift:146-185 | the pixel loop computes `Decode` |
| `TerrainTiles.SampleIndex` | AirplaneTracker3D/Rendering/TerrainTileManager.swift:224-225 | a grid line samples an image row or column within 0..255 |
| `TerrainTiles.SampleInRange` | AirplaneTracker3D/Rendering/TerrainTileManager.swift:217-226 | the grid edges sample the image edges and every sample lies inside the 256x256 heights |
| `TerrainTiles.GridVertex` | AirplaneTracker3D/Rendering/TerrainTileManager.swift:217-233 | a vertex is never below 0, and sits at 0 where the sampled height is 0 or below |
| `TerrainTiles.Neighbours` | AirplaneTracker3D/Rendering/TerrainTileManager.swift:265-269 | the clamped neighbours are real vertices, left and right on the same row, up and down on the same column |
| `TerrainTiles.ShadedAt` | AirplaneTracker3D/Rendering/TerrainTileManager.swift:261-283 | the normal pass keeps each vertex's position and texture coordinate |
| `TerrainTiles.IndicesInRange` | AirplaneTracker3D/Rendering/TerrainTileManager.swift:239-258 | every index names one of the 1089 vertices |
| `TerrainTiles.TrianglesWellFormed` | AirplaneTracker3D/Rendering/TerrainTileManager.swift:243-256 | each triangle has three distinct corners and the two triangles of a quad share the top-right/bottom-left diagonal |
| `TerrainTiles.QuadEntries` | AirplaneTracker3D/Rendering/TerrainTileManager.swift:240-257 | quad (ix, iy) occupies index entries 6(32 iy + ix) to 6(32 iy + ix) + 5 |
| `TerrainTiles.BuildTerrainMesh` | AirplaneTracker3D/Rendering/TerrainTileManager.swift:191-310 | the three passes compute `MeshFor`, or None when a GPU buffer cannot be made |
| `TerrainTiles.PlaceVertices` | AirplaneTracker3D/Rendering/TerrainTileManager.swift:215-236 | the vertex pass writes every grid vertex in row-major order |
| `TerrainTiles.FillIndices` | AirplaneTracker3D/Rendering/TerrainTileManager.swift:239-258 | the index pass writes two triangles per quad in order |
| `TerrainTiles.WriteQuad` | AirplaneTracker3D/Rendering/TerrainTileManager.swift:243-256 | one quad writes its six corners and touches nothing else |
| `TerrainTiles.ShadeVertices` | AirplaneTracker3D/Rendering/TerrainTileManager.swift:261-284 | the normal pass gives every vertex the normal from its original neighbours |
| `TerrainTiles.ShadeOne` | AirplaneTracker3D/Rendering/TerrainTileManager.swift:263-282 | one shading step sees unshaded neighbour positions |
| `TerrainTiles.SamePositions` | AirplaneTracker3D/Rendering/TerrainTileManager.swift:261-284 | shading moves no vertex |
| `TerrainTiles.Fetched` | AirplaneTracker3D/Rendering/TerrainTileManager.swift:99-131 | a mesh results iff the download succeeded with status 200 or none, the image decodes and buffers are made; it has 1089 vertices and 6144 indices |
| `TerrainTiles.TerrainTileManager.constructor` | AirplaneTracker3D/Rendering/TerrainTileManager.swift:23-31 | empty cache, order and pending set |
| `TerrainTiles.TerrainTileManager.TerrainMeshFor` | AirplaneTracker3D/Rendering/TerrainTileManager.swift:68-91 | a hit returns the mesh and moves the tile to the back; a miss not pending marks it pending and requests the Terrarium URL once; a pending miss changes nothing |
| `TerrainTiles.TerrainTileManager.TouchTile` | AirplaneTracker3D/Rendering/TerrainTileManager.swift:74-78 | a hit leaves the order as `Touch` (the tile moved to the back) and keeps the cache invariant |
| `TerrainTiles.TerrainTileManager.CompleteFetch` | AirplaneTracker3D/Rendering/TerrainTileManager.swift:99-139 | the tile leaves the pending set; failures cache nothing; a mesh is stored last with the oldest beyond 250 evicted |
| `TerrainTiles.TerrainTileManager.ClearCache` | AirplaneTracker3D/Rendering/TerrainTileManager.swift:315-321 | cache, order and pending set become empty |
| `Tiles.Pow2` | AirplaneTracker3D/Map/TileCoordinate.swift:13 | the tile count per axis is at least 1 |
| `Tiles.Rem` | AirplaneTracker3D/Map/TileCoordinate.swift:21 | Swift's remainder lies strictly between -n and n and agrees with the mathematical one for a non-negative dividend |
| `Tiles.DivModUnique` | AirplaneTracker3D/Map/TileCoordinate.swift:21-22 | a quotient and remainder in [0, n) are the ones division gives |
| `Tiles.RemNegative` | AirplaneTracker3D/Map/TileCoordinate.swift:21-22 | adding n to a negative Swift remainder gives the mathematical remainder |
| `Tiles.Wrap` | AirplaneTracker3D/Map/TileCoordinate.swift:62 | ((t % n) + n) % n always lies in [0, n) and equals t mod n |
| `Tiles.TileFor` | AirplaneTracker3D/Map/TileCoordinate.swift:12-26 | x wraps to rawX mod 2^zoom; y is kept when on the map, else clamped to 0 or 2^zoom - 1 |
| `Tiles.Row` | AirplaneTracker3D/Map/TileCoordinate.swift:59-64 | a row lists 2r+1 tiles |
| `Tiles.RowsInRange` | AirplaneTracker3D/Map/TileCoordinate.swift:54-57 | no more rows are on the map than are visited |
| `Tiles.RowsCount` | AirplaneTracker3D/Map/TileCoordinate.swift:54-65 | the listing has 2r+1 tiles per row on the map |
| `Tiles.RowsOnMap` | AirplaneTracker3D/Map/TileCoordinate.swift:54-65 | every listed tile exists at the requested zoom |
| `Tiles.VisibleTilesBounds` | AirplaneTracker3D/Map/TileCoordinate.swift:46-68 | at most (2r+1)^2 tiles, all on the map at the requested zoom |
| `Tiles.TileAtRowMajor` | AirplaneTracker3D/Map/TileCoordinate.swift:54-65 | when no row is skipped, tile (dx, dy) is at position (dy+r)(2r+1)+(dx+r) |
| `Tiles.RowMajor` | AirplaneTracker3D/Map/TileCoordinate.swift:54-65 | a row's tiles follow those of the rows before it |
| `Tiles.RowMajorIndex` | AirplaneTracker3D/Map/TileCoordinate.swift:54-65 | row-major positions lie inside the square |
| `Tiles.AllRowsCount` | AirplaneTracker3D/Map/TileCoordinate.swift:54-65 | with every row on the map the listing has rows(2r+1) tiles |
| `Tiles.ListVisibleTiles` | AirplaneTracker3D/Map/TileCoordinate.swift:46-68 | the nested loops compute `VisibleTiles` |
| `Airspace.Number` | AirplaneTracker3D/Rendering/AirspaceManager.swift:356-359 | a JSON integer or double reads as a number, nothing else does |
| `Airspace.ParseAltitude` | AirplaneTracker3D/Rendering/AirspaceManager.swift:352-372 | a missing or non-numeric value gives 0; a number is taken as is unless the unit is FL |
| `Airspace.FlightLevelFeet` | AirplaneTracker3D/Rendering/AirspaceManager.swift:366-369 | a flight-level altitude is 100 times the plain value |
| `Airspace.CastAll` | AirplaneTracker3D/Rendering/AirspaceManager.swift:332 | an array cast succeeds iff every element casts, keeping length and order |
| `Airspace.StringField` | AirplaneTracker3D/Rendering/AirspaceManager.swift:251 | a string field is read iff present as a string |
| `Airspace.ObjectField` | AirplaneTracker3D/Rendering/AirspaceManager.swift:249-250 | an object field is read iff present as an object |
| `Airspace.ExtractCoordinates` | AirplaneTracker3D/Rendering/AirspaceManager.swift:323-346 | a Polygon gives its first ring, a MultiPolygon its first polygon's first ring, anything else nothing |
| `Airspace.PolygonRing` | AirplaneTracker3D/Rendering/AirspaceManager.swift:329-345 | a Polygon whose rings cast gives its outer ring, a MultiPolygon whose polygons cast gives its first polygon's outer ring, any other geometry type gives nothing |
| `Airspace.CeilingY` | AirplaneTracker3D/Rendering/AirspaceManager.swift:286-287 | the ceiling is at least 0.5 above the floor, and is either that or the stated ceiling |
| `Airspace.FloorFace` | AirplaneTracker3D/Rendering/AirspaceManager.swift:384-405 | one floor vertex per triangle index |
| `Airspace.CeilingFace` | AirplaneTracker3D/Rendering/AirspaceManager.swift:407-428 | one ceiling vertex per triangle index |
| `Airspace.Wall` | AirplaneTracker3D/Rendering/AirspaceManager.swift:432-455 | six vertices per polygon edge |
| `Airspace.Walls` | AirplaneTracker3D/Rendering/AirspaceManager.swift:430-455 | six wall vertices per edge visited |
| `Airspace.Outline` | AirplaneTracker3D/Rendering/AirspaceManager.swift:468-497 | six outline vertices per edge |
| `Airspace.Outlines` | AirplaneTracker3D/Rendering/AirspaceManager.swift:468-497 | six outline vertices per edge visited |
| `Airspace.MeshCounts` | AirplaneTracker3D/Rendering/AirspaceManager.swift:377-500 | the fill has 6 vertices per triangle and per edge, the outline 6 per edge; floor vertices sit at the floor, ceiling vertices at the ceiling |
| `Airspace.WorldPoints` | AirplaneTracker3D/Rendering/AirspaceManager.swift:273-279 | one projected point per position |
| `Airspace.BuildOne` | AirplaneTracker3D/Rendering/AirspaceManager.swift:248-315 | a built volume comes from a usable feature, keeps its class and has a closed outline and a non-empty fill |
| `Airspace.Extrude` | AirplaneTracker3D/Rendering/AirspaceManager.swift:285-314 | a triangulated outline extrudes to a volume of that shape and class |
| `Airspace.TriangleIndicesIn` | AirplaneTracker3D/Rendering/AirspaceManager.swift:282-298 | every triangulation index names an outline point |
| `Airspace.BuiltVolumes` | AirplaneTracker3D/Rendering/AirspaceManager.swift:245-318 | every built volume has that shape and there are never more volumes than features |
| `Airspace.SkipsUnusable` | AirplaneTracker3D/Rendering/AirspaceManager.swift:249-270 | a feature missing properties, geometry or class, or with fewer than 3 positions, adds nothing |
| `Airspace.ClassOrder` | AirplaneTracker3D/Rendering/AirspaceManager.swift:525-532 | D is 1, C 2, B 3, anything else 0 |
| `Airspace.OfClass` | AirplaneTracker3D/Rendering/AirspaceManager.swift:140-147 | the selected features all have the class and come from the input |
| `Airspace.DrawOrderIsSortedFilter` | AirplaneTracker3D/Rendering/AirspaceManager.swift:139-154 | the drawn features are exactly the shown ones, as often as in the input, sorted by class order |
| `Airspace.DrawOrderSorted` | AirplaneTracker3D/Rendering/AirspaceManager.swift:139-154 | every drawn feature is shown by its class toggle, and class order never decreases along the draw order |
| `Airspace.OfClassCount` | AirplaneTracker3D/Rendering/AirspaceManager.swift:140-147 | selecting a class keeps each feature of it as often as in the input |
| `Airspace.Pack` | AirplaneTracker3D/Rendering/AirspaceManager.swift:160-167 | a packed buffer never exceeds its capacity |
| `Airspace.Packed` | AirplaneTracker3D/Rendering/AirspaceManager.swift:160-167 | no more meshes are packed than there are |
| `Airspace.PackIsPrefix` | AirplaneTracker3D/Rendering/AirspaceManager.swift:160-167 | the buffer is the concatenation of the leading meshes that fit, and the next one would overflow it |
| `Airspace.ConcatCons` | AirplaneTracker3D/Rendering/AirspaceManager.swift:160-167 | concatenating leading meshes splits off the first |
| `Airspace.FillMeshes` | AirplaneTracker3D/Rendering/AirspaceManager.swift:160-161 | one fill mesh per feature |
| `Airspace.EdgeMeshes` | AirplaneTracker3D/Rendering/AirspaceManager.swift:174-175 | one edge mesh per feature |
| `Airspace.ShouldFetch` | AirplaneTracker3D/Rendering/AirspaceManager.swift:99-113 | a first load goes ahead when idle, and no load starts while one is running |
| `Airspace.SameAreaNoRefetch` | AirplaneTracker3D/Rendering/AirspaceManager.swift:101-109 | asking again for the area just fetched never fetches |
| `Airspace.AirspaceManager.constructor` | AirplaneTracker3D/Rendering/AirspaceManager.swift:39-55 | every class shown, no features, idle, no previous area |
| `Airspace.AirspaceManager.LoadAirspace` | AirplaneTracker3D/Rendering/AirspaceManager.swift:99-132 | a small move or a running load changes nothing; a failed request keeps the features and clears the loading flag; a reply replaces the features with the built volumes and records the area |
| `Airspace.AirspaceManager.Update` | AirplaneTracker3D/Rendering/AirspaceManager.swift:136-183 | the fill and edge buffers hold the shown volumes, D first then C then B, packed whole up to 50000 and 20000 vertices |
| `Airspace.Visible` | AirplaneTracker3D/Rendering/AirspaceManager.swift:140-147 | the filter loop computes the shown features |
| `Airspace.VisibleThenSorted` | AirplaneTracker3D/Rendering/AirspaceManager.swift:139-154 | filtering then grouping by class gives the draw order |
| `Airspace.FilterThenClass` | AirplaneTracker3D/Rendering/AirspaceManager.swift:139-154 | selecting a class after the filter equals selecting it under its toggle |
| `Airspace.SortByClass` | AirplaneTracker3D/Rendering/AirspaceManager.swift:150-154 | the sort groups D, C, B keeping input order within a class |
| `Airspace.PackBuffer` | AirplaneTracker3D/Rendering/AirspaceManager.swift:156-167 | the copy loop computes `Pack` |
| `Airspace.PackStep` | AirplaneTracker3D/Rendering/AirspaceManager.swift:160-162 | a mesh that fits is copied whole and the rest packed into the room left |
| `Airspace.CopyVertices` | AirplaneTracker3D/Rendering/AirspaceManager.swift:163-166 | the inner copy loop appends exactly the mesh's vertices, in order |
| `Airspace.BuildFeatures` | AirplaneTracker3D/Rendering/AirspaceManager.swift:245-318 | the loop computes `BuildAll` |
| `Airspace.TrapSticks` | AirplaneTracker3D/Rendering/AirspaceManager.swift:273-275 | once one feature traps, the whole build traps |
| `Airspace.BuildFeature` | AirplaneTracker3D/Rendering/AirspaceManager.swift:249-314 | the loop body computes `BuildOne` |
| `Airspace.BuildFillMesh` | AirplaneTracker3D/Rendering/AirspaceManager.swift:377-458 | the three loops compute `FillMesh` |
| `Airspace.FloorLoop` | AirplaneTracker3D/Rendering/AirspaceManager.swift:384-405 | the floor loop emits one floor-height triangle per index triple, in the given winding |
| `Airspace.CeilingLoop` | AirplaneTracker3D/Rendering/AirspaceManager.swift:407-428 | the ceiling loop emits the same triangles at ceiling height with the last two corners swapped |
| `Airspace.WallLoop` | AirplaneTracker3D/Rendering/AirspaceManager.swift:430-455 | the wall loop emits two triangles per polygon edge, the last edge wrapping to the first point |
| `Airspace.BuildEdgeMesh` | AirplaneTracker3D/Rendering/AirspaceManager.swift:462-500 | the loop computes `EdgeMesh` |
| `Instances.SortOrder` | AirplaneTracker3D/Rendering/AircraftInstanceManager.swift:284-293 | every category gets a batching rank below 6 |
| `Instances.SortOrderBijective` | AirplaneTracker3D/Rendering/AircraftInstanceManager.swift:284-293 | the ranks 0..5 are taken by exactly one category each |
| `Instances.ScanRuns` | AirplaneTracker3D/Rendering/AircraftInstanceManager.swift:95-103 | the open run starts inside the states seen |
| `Instances.CategoriesSplit` | AirplaneTracker3D/Rendering/AircraftInstanceManager.swift:95-106 | the categories seen split at a run boundary |
| `Instances.NewCategoryIsNew` | AirplaneTracker3D/Rendering/AircraftInstanceManager.swift:96 | on category-sorted states a category change means a category not seen before |
| `Instances.ScanSame` | AirplaneTracker3D/Rendering/AircraftInstanceManager.swift:95-96 | a state of the open run's category extends the run |
| `Instances.ScanNew` | AirplaneTracker3D/Rendering/AircraftInstanceManager.swift:96-102 | a new category closes the open run with its exact count and opens its own |
| `Instances.ScanRunsInv` | AirplaneTracker3D/Rendering/AircraftInstanceManager.swift:91-103 | on sorted states the loop keeps each closed range exact |
| `Instances.RangesPartition` | AirplaneTracker3D/Rendering/AircraftInstanceManager.swift:90-106 | on sorted states there is one range per present category, covering exactly its positions, in category order |
| `Instances.RangesExact` | AirplaneTracker3D/Rendering/AircraftInstanceManager.swift:90-106 | on sorted states the ranges' keys are the present categories and each range covers exactly its category's positions |
| `Instances.RangesOrdered` | AirplaneTracker3D/Rendering/AircraftInstanceManager.swift:88-106 | on sorted states a range of an earlier category ends before a later category's range starts |
| `Instances.ComputeRanges` | AirplaneTracker3D/Rendering/AircraftInstanceManager.swift:90-106 | the range loop computes `Ranges` |
| `Instances.SortedCategories` | AirplaneTracker3D/Rendering/AircraftInstanceManager.swift:88 | sorting keeps the set of categories |
| `Instances.AltitudeColorMonotonic` | AirplaneTracker3D/Rendering/AircraftInstanceManager.swift:230-248 | red never falls and green never rises as altitude grows, every component stays in [0,1] with alpha 1, and the colour is constant from 45000 ft |
| `Instances.PlaceFields` | AirplaneTracker3D/Rendering/AircraftInstanceManager.swift:120-206 | one state advances its light phase by 5 dt and its rotor angle by dt times the speed, adds one instance and glow, and one rotor or propeller for helicopters and small aircraft |
| `Instances.PlaceSpins` | AirplaneTracker3D/Rendering/AircraftInstanceManager.swift:181-206 | a helicopter appends one rotor, a small aircraft one propeller, any other category no spinning part |
| `Instances.PopulateShape` | AirplaneTracker3D/Rendering/AircraftInstanceManager.swift:120-206 | one instance and glow per state in order, flagged iff selected, coloured by the tint or by altitude; one spinning part per helicopter and small aircraft |
| `Instances.RotorAnglesAdvance` | AirplaneTracker3D/Rendering/AircraftInstanceManager.swift:126-133 | a rotor angle persists between frames and advances by its aircraft's turns this frame |
| `Instances.RotorAnglesKept` | AirplaneTracker3D/Rendering/AircraftInstanceManager.swift:132-133 | angles are kept for every aircraft ever seen |
| `Instances.SpinLayout` | AirplaneTracker3D/Rendering/AircraftInstanceManager.swift:181-210 | on sorted states the rotors come first and the propellers start at the helicopter count |
| `Instances.PopulateBuffers` | AirplaneTracker3D/Rendering/AircraftInstanceManager.swift:120-206 | the population loop computes `Populate` |
| `Instances.PlaceState` | AirplaneTracker3D/Rendering/AircraftInstanceManager.swift:121-205 | the loop body computes `Place` |
| `Instances.AircraftInstanceManager.constructor` | AirplaneTracker3D/Rendering/AircraftInstanceManager.swift:29-40 | empty ranges, counts and animation state |
| `Instances.AircraftInstanceManager.Update` | AirplaneTracker3D/Rendering/AircraftInstanceManager.swift:81-211 | the first 1024 states, sorted by category order, give the ranges and buffers; propellers start at the helicopter count |
| `Instances.AircraftInstanceManager.Publish` | AirplaneTracker3D/Rendering/AircraftInstanceManager.swift:85-210 | the frame's counts, ranges, buffers and offsets are stored |
| `Instances.UpdateLayout` | AirplaneTracker3D/Rendering/AircraftInstanceManager.swift:84-210 | at most 1024 states are drawn, the kept ones permuted; ranges partition them by category; rotors then propellers |
| `Heatmap.SameViewKeepsGrid` | AirplaneTracker3D/Rendering/HeatmapManager.swift:92-98 | the same view never resets the grid |
| `Heatmap.FarPanResets` | AirplaneTracker3D/Rendering/HeatmapManager.swift:92-102 | panning the centre by more than a whole span always resets the grid |
| `Heatmap.BoundsRule` | AirplaneTracker3D/Rendering/HeatmapManager.swift:91-106 | the first accumulation records its bounds; later ones replace them only when the view shifted by more than half a span |
| `Heatmap.Normalised` | AirplaneTracker3D/Rendering/HeatmapManager.swift:120-124 | a normalised coordinate lies in [0, 1) exactly when the coordinate lies inside the bounds |
| `Heatmap.Bucket` | AirplaneTracker3D/Rendering/HeatmapManager.swift:127-132 | a normalised coordinate maps to a column below 32, never past its own position |
| `Heatmap.CellOf` | AirplaneTracker3D/Rendering/HeatmapManager.swift:115-134 | a state is counted iff it lies in [west, east) x [south, north), and then in a cell below 1024 |
| `Heatmap.CellColumnRow` | AirplaneTracker3D/Rendering/HeatmapManager.swift:127-134 | the cell's column is the x bucket and its row the y bucket |
| `Heatmap.Counted` | AirplaneTracker3D/Rendering/HeatmapManager.swift:115-135 | the grid keeps its 1024 cells |
| `Heatmap.CountedCell` | AirplaneTracker3D/Rendering/HeatmapManager.swift:115-135 | each cell grows by exactly the number of states landing in it |
| `Heatmap.SumBump` | AirplaneTracker3D/Rendering/HeatmapManager.swift:134 | one increment raises the total by one |
| `Heatmap.CountedSum` | AirplaneTracker3D/Rendering/HeatmapManager.swift:115-135 | the total grows by the number of states inside the bounds |
| `Heatmap.AnyPositive` | AirplaneTracker3D/Rendering/HeatmapManager.swift:41-43 | true iff some cell is above 0 |
| `Heatmap.MaxCell` | AirplaneTracker3D/Rendering/HeatmapManager.swift:174 | the largest cell, or 0 for no cells |
| `Heatmap.MaxVal` | AirplaneTracker3D/Rendering/HeatmapManager.swift:174 | the ramp divisor is at least 1 and at least every cell |
| `Heatmap.RampPerTheme` | AirplaneTracker3D/Rendering/HeatmapManager.swift:177-184 | each theme's configuration selects that theme's ramp |
| `Heatmap.ToByte` | AirplaneTracker3D/Rendering/HeatmapManager.swift:235-238 | the clamped byte lies in 0..255 |
| `Heatmap.ToByteMonotonic` | AirplaneTracker3D/Rendering/HeatmapManager.swift:235-238 | the byte conversion never decreases |
| `Heatmap.Intensity` | AirplaneTracker3D/Rendering/HeatmapManager.swift:203 | a cell's intensity lies in [0, 1] and is positive for a non-empty cell |
| `Heatmap.Texel` | AirplaneTracker3D/Rendering/HeatmapManager.swift:191-238 | four bytes, each in 0..255 |
| `Heatmap.TexelVisibility` | AirplaneTracker3D/Rendering/HeatmapManager.swift:193-238 | an empty cell is fully transparent and a non-empty one has alpha of at least 38 |
| `Heatmap.DenserIsOpaquer` | AirplaneTracker3D/Rendering/HeatmapManager.swift:203-238 | a busier cell is never more transparent |
| `Heatmap.RetroIsGreen` | AirplaneTracker3D/Rendering/HeatmapManager.swift:211-215 | the retro ramp has no red or blue |
| `Heatmap.Texture` | AirplaneTracker3D/Rendering/HeatmapManager.swift:187-241 | the texture has 4096 bytes |
| `Heatmap.TexelPlacement` | AirplaneTracker3D/Rendering/HeatmapManager.swift:191-192 | cell c's texel sits at bytes 4c..4c+3, and an empty cell's bytes are 0 |
| `Heatmap.TexelSlice` | AirplaneTracker3D/Rendering/HeatmapManager.swift:191-238 | the four bytes of cell c are its texel |
| `Heatmap.Quad` | AirplaneTracker3D/Rendering/HeatmapManager.swift:262-289 | the ground quad has six vertices |
| `Heatmap.QuadFor` | AirplaneTracker3D/Rendering/HeatmapManager.swift:251-259 | the quad for a view has six vertices |
| `Heatmap.QuadTexturesCorners` | AirplaneTracker3D/Rendering/HeatmapManager.swift:260-289 | every vertex sits on the ground at the corner its texture coordinate names, and the two triangles share the diagonal |
| `Heatmap.HeatmapManager.constructor` | AirplaneTracker3D/Rendering/HeatmapManager.swift:50-51 | an all-zero grid and no bounds |
| `Heatmap.HeatmapManager.HasData` | AirplaneTracker3D/Rendering/HeatmapManager.swift:41-43 | true iff some cell holds a detection |
| `Heatmap.HeatmapManager.HeatmapTexture` | AirplaneTracker3D/Rendering/HeatmapManager.swift:165-167 | a texture iff some cell holds a detection |
| `Heatmap.HeatmapManager.Accumulate` | AirplaneTracker3D/Rendering/HeatmapManager.swift:89-136 | the bounds follow the reset rule, a shift clears the grid, and each state inside is counted in its cell |
| `Heatmap.HeatmapManager.GenerateTexture` | AirplaneTracker3D/Rendering/HeatmapManager.swift:172-246 | the texel loops compute `Texture` with the theme's ramp |
| `Heatmap.HeatmapManager.Update` | AirplaneTracker3D/Rendering/HeatmapManager.swift:142-150 | nothing before the first accumulation; otherwise the texture and the quad for the kept bounds |
| `Heatmap.WriteTexel` | AirplaneTracker3D/Rendering/HeatmapManager.swift:192-238 | the four bytes of one texel extend the written prefix |
| `EarClip.EdgeCrossReversed` | AirplaneTracker3D/Rendering/EarClipTriangulator.swift:65-74 | each edge term of the reversed polygon is the matching original edge term negated |
| `EarClip.ReversedCrossSum` | AirplaneTracker3D/Rendering/EarClipTriangulator.swift:65-74 | the partial shoelace sums of the reversed polygon are the original partial sums negated |
| `EarClip.ClosingEdgeReversed` | AirplaneTracker3D/Rendering/EarClipTriangulator.swift:65-74 | the closing edge term of the reversed polygon is the original closing edge term negated |
| `EarClip.ReverseNegatesArea` | AirplaneTracker3D/Rendering/EarClipTriangulator.swift:65-74 | reversing a polygon negates its signed area |
| `EarClip.StartOrderCounterClockwise` | AirplaneTracker3D/Rendering/EarClipTriangulator.swift:20-25 | the polygon visited in the starting order has a non-negative signed area |
| `EarClip.Range` | AirplaneTracker3D/Rendering/EarClipTriangulator.swift:20 | the indices 0..n-1 in order |
| `EarClip.Reverse` | AirplaneTracker3D/Rendering/EarClipTriangulator.swift:23-25 | the reversed index list |
| `EarClip.Neighbours` | AirplaneTracker3D/Rendering/EarClipTriangulator.swift:37-39 | the cyclic neighbours of a position are the previous and next ones, wrapping at the ends |
| `EarClip.CutKeepsDistinct` | AirplaneTracker3D/Rendering/EarClipTriangulator.swift:48 | removing one entry leaves distinct in-range vertices, one fewer |
| `EarClip.EmitTriangle` | AirplaneTracker3D/Rendering/EarClipTriangulator.swift:43-45 | appending three distinct vertices keeps every triangle good |
| `EarClip.StartOrder` | AirplaneTracker3D/Rendering/EarClipTriangulator.swift:20-25 | the starting order lists each polygon vertex once, reversed when clockwise |
| `EarClip.ClipPass` | AirplaneTracker3D/Rendering/EarClipTriangulator.swift:33-56 | a pass leaves at least two vertices and a cursor inside them |
| `EarClip.PassGood` | AirplaneTracker3D/Rendering/EarClipTriangulator.swift:35-56 | a pass keeps the vertices or removes one and emits one good triangle of three of them |
| `EarClip.EarGood` | AirplaneTracker3D/Rendering/EarClipTriangulator.swift:41-53 | clipping an ear keeps the rest distinct and emits a good triangle |
| `EarClip.DistinctAt` | AirplaneTracker3D/Rendering/EarClipTriangulator.swift:37-39 | different positions of a distinct list hold different vertices |
| `EarClip.ClipGood` | AirplaneTracker3D/Rendering/EarClipTriangulator.swift:33-57 | the loop emits one good triangle per removed vertex, at most n-2 |
| `EarClip.TriangulationGood` | AirplaneTracker3D/Rendering/EarClipTriangulator.swift:16-60 | fewer than 3 points give nothing; otherwise at most n-2 triangles, each of three distinct polygon vertices |
| `EarClip.Triangulate` | AirplaneTracker3D/Rendering/EarClipTriangulator.swift:16-60 | the clipping loop computes `Triangulation` |
| `EarClip.ClipOnce` | AirplaneTracker3D/Rendering/EarClipTriangulator.swift:35-56 | the loop body computes `ClipPass` |
| `EarClip.ClipLoop` | AirplaneTracker3D/Rendering/EarClipTriangulator.swift:30-57 | the clipping loop, from any state, computes `Clip` from that state |
| `EarClip.StartIndices` | AirplaneTracker3D/Rendering/EarClipTriangulator.swift:20-25 | the working copy computes `StartOrder` |
| `MeshLibrary.AppendKeepsIndexes` | AirplaneTracker3D/Rendering/AircraftMeshLibrary.swift:93 | appending vertices with indices into them keeps every index of the growing mesh valid |
| `MeshLibrary.SideIndicesRange` | AirplaneTracker3D/Rendering/AircraftMeshLibrary.swift:116-123 | the side quads address only the two side rings |
| `MeshLibrary.CapIndicesRange` | AirplaneTracker3D/Rendering/AircraftMeshLibrary.swift:155-161 | the cap fans address only the cap centres and cap rings |
| `MeshLibrary.CylinderIndicesRange` | AirplaneTracker3D/Rendering/AircraftMeshLibrary.swift:88-162 | a cylinder's indices stay within its own 4s+2 vertices |
| `MeshLibrary.SideRingOnRim` | AirplaneTracker3D/Rendering/AircraftMeshLibrary.swift:97-114 | each side vertex lies on the bottom or top plane |
| `MeshLibrary.CapRingOnCap` | AirplaneTracker3D/Rendering/AircraftMeshLibrary.swift:137-153 | each cap vertex lies on its plane with the matching flat normal |
| `MeshLibrary.CylinderShape` | AirplaneTracker3D/Rendering/AircraftMeshLibrary.swift:88-162 | every cylinder vertex is on the bottom or top plane; every vertex after the side rings is a cap vertex facing out |
| `MeshLibrary.AppendCylinder` | AirplaneTracker3D/Rendering/AircraftMeshLibrary.swift:88-162 | keeps the old buffers as a prefix, appends the cylinder's vertices and indices, and keeps every index valid |
| `MeshLibrary.AppendCylinderSides` | AirplaneTracker3D/Rendering/AircraftMeshLibrary.swift:96-123 | appends both side rings and the side quads |
| `MeshLibrary.AppendCylinderCaps` | AirplaneTracker3D/Rendering/AircraftMeshLibrary.swift:124-161 | appends the two centres, the cap rings and the cap fans |
| `MeshLibrary.ConeIndicesRange` | AirplaneTracker3D/Rendering/AircraftMeshLibrary.swift:191-195 | the cone's indices stay within its tip and base ring |
| `MeshLibrary.ConeFan` | AirplaneTracker3D/Rendering/AircraftMeshLibrary.swift:191-195 | triangle k is the tip with rim vertices k and k+1, wrapping to 0 |
| `MeshLibrary.ConeRingFlat` | AirplaneTracker3D/Rendering/AircraftMeshLibrary.swift:179-189 | the base ring lies in the plane through the offset |
| `MeshLibrary.ConeShape` | AirplaneTracker3D/Rendering/AircraftMeshLibrary.swift:164-196 | the tip is `height` along +Z from the offset; the base ring lies in the offset's plane |
| `MeshLibrary.AppendCone` | AirplaneTracker3D/Rendering/AircraftMeshLibrary.swift:164-196 | keeps the old buffers as a prefix, appends tip, ring and fan, and keeps every index valid |
| `MeshLibrary.Faces` | AirplaneTracker3D/Rendering/AircraftMeshLibrary.swift:205-213 | six faces of four corners each |
| `MeshLibrary.FacesOutward` | AirplaneTracker3D/Rendering/AircraftMeshLibrary.swift:205-213 | each face's corners lie in the plane its normal faces, at the half-size along that axis |
| `MeshLibrary.BoxVerticesAllFaces` | AirplaneTracker3D/Rendering/AircraftMeshLibrary.swift:215-222 | the per-face loop produces the 24 box vertices |
| `MeshLibrary.FaceTris` | AirplaneTracker3D/Rendering/AircraftMeshLibrary.swift:219-221 | a face's two triangles use only that face's four vertices |
| `MeshLibrary.BoxIndicesAllFaces` | AirplaneTracker3D/Rendering/AircraftMeshLibrary.swift:215-222 | the per-face loop produces the 36 box indices |
| `MeshLibrary.BoxFaceLocal` | AirplaneTracker3D/Rendering/AircraftMeshLibrary.swift:216-221 | face f's six indices are its own two triangles over its own four vertices |
| `MeshLibrary.BoxIndicesRange` | AirplaneTracker3D/Rendering/AircraftMeshLibrary.swift:215-222 | the box indices stay within its own vertices |
| `MeshLibrary.FaceAtCorners` | AirplaneTracker3D/Rendering/AircraftMeshLibrary.swift:217-218 | a face's vertices sit at box corners |
| `MeshLibrary.BoxAtCornersUpTo` | AirplaneTracker3D/Rendering/AircraftMeshLibrary.swift:215-222 | every vertex of the first n faces sits at a box corner |
| `MeshLibrary.BoxAtCorners` | AirplaneTracker3D/Rendering/AircraftMeshLibrary.swift:197-223 | every box vertex sits at one of the eight corners of the box centred at the offset |
| `MeshLibrary.AppendBox` | AirplaneTracker3D/Rendering/AircraftMeshLibrary.swift:197-223 | keeps the old buffers as a prefix, appends 24 vertices and 36 indices, and keeps every index valid |
| `MeshLibrary.SphereVertices` | AirplaneTracker3D/Rendering/AircraftMeshLibrary.swift:231-249 | s/2+1 rings of s+1 vertices |
| `MeshLibrary.SphereIndices` | AirplaneTracker3D/Rendering/AircraftMeshLibrary.swift:251-262 | 6·s·(s/2) indices |
| `MeshLibrary.SphereIndexRowRange` | AirplaneTracker3D/Rendering/AircraftMeshLibrary.swift:253-260 | a band's indices stay within its two rings |
| `MeshLibrary.SphereIndexRowsRange` | AirplaneTracker3D/Rendering/AircraftMeshLibrary.swift:252-261 | the first n bands address only the first n+1 rings |
| `MeshLibrary.SphereIndicesRange` | AirplaneTracker3D/Rendering/AircraftMeshLibrary.swift:251-262 | a sphere's indices stay within its own vertices |
| `MeshLibrary.SphereRowOnSphere` | AirplaneTracker3D/Rendering/AircraftMeshLibrary.swift:238-248 | each ring vertex is `radius` from the centre along its normal |
| `MeshLibrary.SphereRowsOnSphere` | AirplaneTracker3D/Rendering/AircraftMeshLibrary.swift:233-249 | every vertex of the first n rings is on the sphere |
| `MeshLibrary.SphereShape` | AirplaneTracker3D/Rendering/AircraftMeshLibrary.swift:225-263 | every sphere vertex is `radius` from the centre along its own normal |
| `MeshLibrary.AppendSphere` | AirplaneTracker3D/Rendering/AircraftMeshLibrary.swift:225-263 | keeps the old buffers as a prefix, appends the rings and bands, and keeps every index valid |
| `MeshLibrary.BuildJet` | AirplaneTracker3D/Rendering/AircraftMeshLibrary.swift:265-297 | a valid mesh of 183 vertices and 420 indices |
| `MeshLibrary.BuildWidebody` | AirplaneTracker3D/Rendering/AircraftMeshLibrary.swift:299-329 | a valid mesh of 251 vertices and 612 indices |
| `MeshLibrary.BuildHelicopter` | AirplaneTracker3D/Rendering/AircraftMeshLibrary.swift:331-352 | a valid mesh of 127 vertices and 360 indices |
| `MeshLibrary.BuildSmallProp` | AirplaneTracker3D/Rendering/AircraftMeshLibrary.swift:354-378 | a valid mesh of 115 vertices and 228 indices |
| `MeshLibrary.BuildMilitary` | AirplaneTracker3D/Rendering/AircraftMeshLibrary.swift:380-404 | a valid mesh of 105 vertices and 168 indices |
| `MeshLibrary.BuildRegional` | AirplaneTracker3D/Rendering/AircraftMeshLibrary.swift:406-442 | the jet at 0.8 scale: a valid mesh of 183 vertices and 420 indices |
| `MeshLibrary.BuildRotor` | AirplaneTracker3D/Rendering/AircraftMeshLibrary.swift:444-461 | a valid mesh of 72 vertices and 108 indices |
| `MeshLibrary.BuildPropeller` | AirplaneTracker3D/Rendering/AircraftMeshLibrary.swift:463-475 | a valid mesh of 24 vertices and 36 indices |
| `MeshLibrary.AircraftMeshLibrary.constructor` | AirplaneTracker3D/Rendering/AircraftMeshLibrary.swift:24-36 | every category has a valid body mesh of its counts; rotor and propeller meshes exist |
| `MeshLibrary.AircraftMeshLibrary.MeshFor` | AirplaneTracker3D/Rendering/AircraftMeshLibrary.swift:38-40 | the category's own mesh when it has one, otherwise the jet mesh |
| `MeshLibrary.AppendSphereRings` | AirplaneTracker3D/Rendering/AircraftMeshLibrary.swift:232-249 | appends the s/2+1 rings pole to pole |
| `MeshLibrary.AppendSphereBands` | AirplaneTracker3D/Rendering/AircraftMeshLibrary.swift:251-262 | appends the band quads between consecutive rings |
| `MeshLibrary.CreateMesh` | AirplaneTracker3D/Rendering/AircraftMeshLibrary.swift:477-496 | keeps both buffers and is a valid mesh exactly when the indices are valid |
| `Themes.FromRaw` | AirplaneTracker3D/Rendering/ThemeManager.swift:7-9 | a parsed raw value names the theme it came from |
| `Themes.RawRoundTrip` | AirplaneTracker3D/Rendering/ThemeManager.swift:7-9 | every theme's raw value parses back to that theme |
| `Themes.Config` | AirplaneTracker3D/Rendering/ThemeManager.swift:78-121 | every theme has a configuration; only retro is wireframe, and retro draws aircraft, trails and label text in pure green |
| `Themes.Next` | AirplaneTracker3D/Rendering/ThemeManager.swift:69-74 | the next theme always differs from the current one |
| `Themes.IndexOf` | AirplaneTracker3D/Rendering/ThemeManager.swift:70-71 | `firstIndex(of:)` always finds the theme in `allCases` |
| `Themes.CycleOfThree` | AirplaneTracker3D/Rendering/ThemeManager.swift:68-74 | three cycles return to the start after visiting day, night and retro |
| `Themes.TileURL` | AirplaneTracker3D/Rendering/ThemeManager.swift:127-139 | an https URL on subdomain a, b or c chosen by \|x\| mod 3, ending in zoom/x/y.png |
| `Themes.ThemesUseDifferentServers` | AirplaneTracker3D/Rendering/ThemeManager.swift:131-138 | day, night and retro fetch the same tile from three different URLs |
| `Themes.NeighboursUseNextSubdomain` | AirplaneTracker3D/Rendering/ThemeManager.swift:128-129 | the next tile to the east uses the next subdomain in rotation |
| `Themes.ThemeManager.constructor` | AirplaneTracker3D/Rendering/ThemeManager.swift:57-64 | starts at the saved theme when it names one, otherwise day |
| `Themes.ThemeManager.SetCurrent` | AirplaneTracker3D/Rendering/ThemeManager.swift:41-48 | a new theme is saved and announced once; setting the same theme does nothing else |
| `Themes.ThemeManager.CycleTheme` | AirplaneTracker3D/Rendering/ThemeManager.swift:69-74 | moves to the next theme, saves it and announces it |
| `Statistics.Trimmed` | AirplaneTracker3D/ViewModels/StatisticsCollector.swift:62-65 | the window is the newest min(n, 120) points, in order |
| `Statistics.TrimAbsorbs` | AirplaneTracker3D/ViewModels/StatisticsCollector.swift:57-66 | trimming after each append keeps the same window as trimming the whole history once |
| `Statistics.SampleGrowth` | AirplaneTracker3D/ViewModels/StatisticsCollector.swift:57-66 | the new point is last; the window grows by one until full, then drops the oldest point |
| `Statistics.StatisticsCollector.constructor` | AirplaneTracker3D/ViewModels/StatisticsCollector.swift:18 | starts with no points |
| `Statistics.StatisticsCollector.Sample` | AirplaneTracker3D/ViewModels/StatisticsCollector.swift:57-66 | appends the provider's count, or 0 without a provider, and keeps the newest 120 samples ever taken |
| `AirportSearch.Query` | AirplaneTracker3D/ViewModels/AirportSearchViewModel.swift:61 | the query is empty exactly when the search text is all blank; otherwise it is the trimmed text with each character lowercased |
| `AirportSearch.MatchesOf` | AirplaneTracker3D/ViewModels/AirportSearchViewModel.swift:65-73 | never more matches than airports |
| `AirportSearch.MatchesOfMembers` | AirplaneTracker3D/ViewModels/AirportSearchViewModel.swift:65-73 | an airport matches exactly when it is in the list and its name, IATA or ICAO field contains the query |
| `AirportSearch.MatchesOfPrefix` | AirplaneTracker3D/ViewModels/AirportSearchViewModel.swift:65-73 | scanning a prefix of the list finds a prefix of all the matches |
| `AirportSearch.Filtered` | AirplaneTracker3D/ViewModels/AirportSearchViewModel.swift:60-75 | empty query gives nothing; otherwise the first min(10, matches) matches in list order |
| `AirportSearch.Entries` | AirplaneTracker3D/ViewModels/AirportSearchViewModel.swift:84-94 | one entry per airport, in list order |
| `AirportSearch.NearbyNearestFirst` | AirplaneTracker3D/ViewModels/AirportSearchViewModel.swift:79-98 | the first min(10, n) airports by distance: drawn from the entries, nearest first, none left out nearer than one kept |
| `AirportSearch.NearbyIsSortedPrefix` | AirplaneTracker3D/ViewModels/AirportSearchViewModel.swift:79-98 | the first m entries by distance are m entries drawn from the input, in non-decreasing distance |
| `AirportSearch.NearbyKeepsNearest` | AirplaneTracker3D/ViewModels/AirportSearchViewModel.swift:79-98 | no entry left out of the first m is nearer than one kept |
| `AirportSearch.AirportSearchViewModel.constructor` | AirplaneTracker3D/ViewModels/AirportSearchViewModel.swift:31-54 | the decoded list or no airports on failure; each airport's search fields are its own, lowercased |
| `AirportSearch.AirportSearchViewModel.FilteredAirports` | AirplaneTracker3D/ViewModels/AirportSearchViewModel.swift:60-75 | computes `Filtered` |
| `AirportSearch.AirportSearchViewModel.ScanMatches` | AirplaneTracker3D/ViewModels/AirportSearchViewModel.swift:64-74 | the scan stops at the tenth match and returns the first ten matches |
| `AirportSearch.ScanFull` | AirplaneTracker3D/ViewModels/AirportSearchViewModel.swift:64-74 | ten matches found in a prefix of the list are the first ten matches of the whole list |
| `AirportSearch.AirportSearchViewModel.NearbyAirports` | AirplaneTracker3D/ViewModels/AirportSearchViewModel.swift:79-98 | at most ten entries, nearest first |
| `AirportSearch.AirportSearchViewModel.FlyTo` | AirplaneTracker3D/ViewModels/AirportSearchViewModel.swift:104-118 | posts the airport's position at height 0.5 and clears the search text, nothing else |
| `FlyTo.Clamp` | AirplaneTracker3D/Camera/OrbitCamera.swift:14 | the result lies in [lo, hi], equals x exactly when x is in range, and is the nearer bound otherwise |
| `FlyTo.OrbitCamera.constructor` | AirplaneTracker3D/Camera/OrbitCamera.swift:10-14 | target at the origin, distance 200 |
| `FlyTo.OrbitCamera.SetDistance` | AirplaneTracker3D/Camera/OrbitCamera.swift:13-15 | the stored distance is the new value clamped to [10, 1000] |
| `FlyTo.Progress` | AirplaneTracker3D/Camera/FlyToAnimator.swift:56-57 | progress never exceeds 1, reaches 1 exactly when the duration has passed, and is non-negative for a non-negative clock |
| `FlyTo.SmoothstepBounds` | AirplaneTracker3D/Camera/FlyToAnimator.swift:59-60 | the ease curve maps [0, 1] into [0, 1], fixing both ends |
| `FlyTo.SmoothstepMonotonic` | AirplaneTracker3D/Camera/FlyToAnimator.swift:59-60 | the ease curve never moves backwards on [0, 1] |
| `FlyTo.LerpBetween` | AirplaneTracker3D/Camera/FlyToAnimator.swift:62-64 | a weight in [0, 1] interpolates between the two ends, giving each end at 0 and 1 |
| `FlyTo.FlyToAnimator.constructor` | AirplaneTracker3D/Camera/FlyToAnimator.swift:13-31 | idle, zeroed, with a 2-second duration |
| `FlyTo.FlyToAnimator.StartFlyTo` | AirplaneTracker3D/Camera/FlyToAnimator.swift:39-46 | captures the camera's target and distance, aims at the position with an end distance of min(distance, 80), and starts from zero |
| `FlyTo.FlyToAnimator.Update` | AirplaneTracker3D/Camera/FlyToAnimator.swift:53-69 | idle does nothing; otherwise advances the clock, eases target and clamped distance along the smoothstep, and stops exactly when progress reaches 1 |
| `FlyTo.FlyToAnimator.Cancel` | AirplaneTracker3D/Camera/FlyToAnimator.swift:72-74 | stops the animation |
| `FlyTo.Arrival` | AirplaneTracker3D/Camera/FlyToAnimator.swift:56-68 | once the duration has passed the camera sits exactly on the destination at the end distance |
| `FlyTo.InFlight` | AirplaneTracker3D/Camera/FlyToAnimator.swift:56-64 | mid-flight the distance stays between start and end distance |
| `FlyTo.ArrivalDistanceBounds` | AirplaneTracker3D/Camera/FlyToAnimator.swift:43 | from a camera within [10, 1000] the end distance lies in [10, 80] and never exceeds the start |
| `Sorting.Insert` | AirplaneTracker3D/ViewModels/AirportSearchViewModel.swift:96 | one more element, holding the old elements plus the inserted one |
| `Sorting.SortBy` | AirplaneTracker3D/ViewModels/AirportSearchViewModel.swift:96 | a rearrangement of the input, same length |
| `Sorting.InsertSorted` | AirplaneTracker3D/ViewModels/AirportSearchViewModel.swift:96 | inserting into an ordered sequence keeps it ordered |
| `Sorting.SortByIsSortedPermutation` | AirplaneTracker3D/ViewModels/AirportSearchViewModel.swift:96 | the result is ordered by key and is a permutation of the input |
| `Sorting.SortedPrefix` | AirplaneTracker3D/ViewModels/AirportSearchViewModel.swift:96-97 | the first m of the sorted sequence are ordered and drawn from the input |
| `Sorting.SmallestFirst` | AirplaneTracker3D/ViewModels/AirportSearchViewModel.swift:96-97 | nothing left out of the first m has a smaller key than an element kept |
| `Sorting.SortedSplit` | AirplaneTracker3D/ViewModels/AirportSearchViewModel.swift:96-97 | in an ordered sequence every element of the first m is no larger than any element after them |
| `FlightData.LastOccurrence` | AirplaneTracker3D/DataLayer/FlightDataActor.swift:171-177 | -1 or the position of a record of the hex, with no record of it after that position |
| `TileCache.MoveToBackMultiset` | AirplaneTracker3D/Map/MapTileManager.swift:75-76 | moving an entry to the back of the order keeps the same entries |
| `TileCache.MoveToBackMembers` | AirplaneTracker3D/Map/MapTileManager.swift:75-76 | moving an entry to the back adds and loses no member |
| `Geometry.Trunc` | AirplaneTracker3D/DataLayer/FlightDataActor.swift:353-354 | `Int(x)` truncates toward zero: the integer at most one unit closer to zero than x |
| `Geometry.DistSq` | AirplaneTracker3D/Rendering/TrailManager.swift:114 | squared distance is non-negative and zero between equal points |
| `Wrappers.Option.GetOr` | AirplaneTracker3D/ViewModels/AirportSearchViewModel.swift:50 | `x ?? d` is the wrapped value when present, otherwise the default |
| `Text.DropLeading` | AirplaneTracker3D/ViewModels/AirportSearchViewModel.swift:61 | a suffix of the input that starts with a non-blank, having dropped only blanks |
| `Text.DropTrailing` | AirplaneTracker3D/ViewModels/AirportSearchViewModel.swift:61 | a prefix of the input that ends with a non-blank, having dropped only blanks |
| `Text.Upper` | AirplaneTracker3D/Models/AircraftCategory.swift:36 | same length, each character upper-cased |
| `Text.Lower` | AirplaneTracker3D/ViewModels/AirportSearchViewModel.swift:49-51 | same length, each character lower-cased |
| `Text.IntToString` | AirplaneTracker3D/Rendering/LabelManager.swift:247-248 | a minus sign exactly for negative numbers, then digits, and the text reads back as the number |
| `Text.NatToString` | AirplaneTracker3D/Rendering/LabelManager.swift:247-248 | decimal digits without a leading zero that read back (by Horner's rule) as the number |
| `MeshLibrary.CylinderVertices` | AirplaneTracker3D/Rendering/AircraftMeshLibrary.swift:96-153 | a cylinder has 4s+2 vertices |
| `MeshLibrary.CylinderIndices` | AirplaneTracker3D/Rendering/AircraftMeshLibrary.swift:116-161 | a cylinder has 12s indices |
| `MeshLibrary.ConeVertices` | AirplaneTracker3D/Rendering/AircraftMeshLibrary.swift:170-189 | a cone has s+1 vertices |
| `MeshLibrary.ConeIndices` | AirplaneTracker3D/Rendering/AircraftMeshLibrary.swift:191-195 | a cone has 3s indices |
| `MeshLibrary.BoxVertices` | AirplaneTracker3D/Rendering/AircraftMeshLibrary.swift:205-222 | a box has 24 vertices |
| `MeshLibrary.BoxIndices` | AirplaneTracker3D/Rendering/AircraftMeshLibrary.swift:215-222 | a box has 36 indices |

## Left out

- Network, file and bundle I/O (URLSession, `Data(contentsOf:)`, JSONDecoder failures) are outcome parameters: `Fetch` responses, an optional image and an optional airport list.
- Concurrency (actors, `DispatchQueue` and `cacheQueue` serialisation, `Task`, timers) is not modelled; every operation runs atomically.
- Metal resources are not modelled. GPU buffers are sequences, and triple buffering is one buffer slot. Texture uploads and CoreText/AppKit label rasterisation are left out; an atlas slot records only which text it holds.
- `Float`/`Double` arithmetic is modelled as exact `real` arithmetic: no rounding, infinities or NaN.
- `sqrt`, `sin`, `cos`, `atan`, `log2`, `normalize` and the Mercator projection are parameters of the operations that use them. `Tiles.TileFor` therefore takes the raw tile position as input, and `tileBounds` is not part of this model.
- `Float.random` (the trail colour seed) and the clock (`Date()`, `CACurrentMediaTime`) are parameters.
- `EarClip.Triangulate`: the `isEar` test (convexity plus `pointInTriangle`) is a parameter, so the model proves the loop's index bookkeeping for any ear test. `pointInTriangle` is not part of this model.
- Swift's `sorted`/`sort` is not stable. The model sorts with a stable insertion sort, so the order among equal keys is only one of those the source may produce. This affects the order within a class in `Airspace.SortByClass`, within a category in `Instances.Batched`, and among equally distant airports in `AirportSearch.Nearby`.
- Dictionary iteration order is unspecified in Swift. Maps model the dictionaries, and loops over them pick keys in an arbitrary order.
- The glow texture (`createGlowTexture`), glow intensity and size (`sin`-based pulses) and the spinning parts' `lightPhase` animation are rendering-only and left out.
- Heatmap: the `UInt32` cell counts are unbounded integers. Swift's `+= 1` traps on overflow instead of wrapping; that trap, after 2^32 - 1 reports in one cell, is not modelled.
- `TileCache.StoreCachedDuplicates`: a download that completes for a tile that is already cached appends it to the LRU order a second time. The model states this case rather than the duplicate-free invariant, which holds only when the completed tile is not cached.
- `Trails.TrailManager.Update`: the `simd_distance < 0.1` test is modelled as squared distance below 0.01, which is the same condition over the reals.
- `FlyTo.FlyToAnimator`: `duration` is public and could be set to 0 (a division by zero in Swift floats). The model requires a positive duration.
- `MeshLibrary`: vertex positions and normals are stated only as far as the shape lemmas go (planes, corners, sphere radius).
- The enrichment service, alert conditions, `FlightDataManager`'s conversion to world coordinates beyond the projection parameter, and the UI views are outside this model.
- Text.IsBlank: `.whitespaces` is every Unicode space separator (category Zs) plus tab; the model keeps only space and tab.
- Text.Trim: trims only space and tab, as `Text.IsBlank` defines them.
- Text.Upper: maps only ASCII letters; Swift's `uppercased()` applies Unicode case mapping, which can also change the length.
- Text.Lower: maps only ASCII letters; Swift's `lowercased()` applies Unicode case mapping.
- AircraftCategory.Classify: the N-number test takes `isNumber` on the character after "N" to be an ASCII digit; Swift's `Character.isNumber` also accepts other Unicode numerals (such as "٣" or "½"), which take the helicopter branch in Swift but not in the model.
- AircraftCategory.NNumberHeuristic: states the helicopter and small rules for "N" + ASCII digit callsigns only, for the reason given under `AircraftCategory.Classify`.
- AirspaceLabels.LabelText: `prefix(12)` counts grapheme clusters; the model counts `char`s, which differ for combined characters.
