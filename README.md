# Orbit visualisation: a verified model of the tracker's own logic

The repository is a single React component, `TLECesiumTracker` in `src/App.tsx`.
It takes a two-line element set (TLE), draws the satellite's predicted orbit as a
polyline on a Cesium globe, and moves a live marker with the simulation clock.
The orbital mathematics (TLE parsing, SGP4 propagation, sidereal time, frame
conversions) belongs to the `satellite.js` library. All drawing belongs to Cesium.
This project models the logic the component writes itself:

- **Orbit sampler** (`Sampler`): `sampleOrbit` walks the offsets `dt = 0, step,
  2·step, … ≤ duration`, propagates at each instant, skips instants without a
  position and appends `[lon, lat, h·1000]`. It is an imperative loop, proved
  against a recursive specification (`SampledPath`). Lemmas give the number of
  samples, their order, and which offsets are skipped.
- **Period and sampling policy** (`Policy`): `computeOrbitalPeriodMinutes`
  (2π / `no`, falling back to 90), `Math.round`, the window
  `max(600, round(period·60))` and the step `max(5, round(duration/240))`.
  Lemmas show that every record gives a positive step and 121 to 264 sampled
  instants.
- **Marker-size hint** (`Policy.MarkerPixelSize`): `12·10⁶/(dist+10⁶)`
  clamped into [6, 20]. It is 12 at distance 0 and never grows with distance.
- **Tracking lifecycle** (`Tracking.Tracker`): a class whose fields are the
  component's refs (`satrecRef`, `startTimeRef`, `pathEntityRef`, `satEntityRef`),
  the `tracking` flag, the viewer's entity collection and a log of the calls made
  on it. `Start` and `Stop` change these fields step by step, as the source does.
  `Valid()` states the invariant both keep: the refs agree with each other; the
  held polyline is the predicted path of the held record from the held start time;
  the viewer holds exactly the entities the refs hold, so no stale entity is ever
  left behind.
- **`String.prototype.trim`** (`JsString`): the component applies it to both TLE
  lines before parsing.

The `satellite.js` calls are fields of a `Satellite.Library` value: one arbitrary
total function per call. Every result holds for all such libraries. Instants are
JavaScript `Date` values in milliseconds, and the current time is a parameter.
JavaScript numbers are reals. A mean motion that is not a finite number is `None`.

Two behaviours one might expect differently; the model follows the code:
- One might expect the sampler to stop at the first instant without a
  position, as on orbital decay. The code skips that instant and keeps
  sampling (`continue`, src/App.tsx:69).
- One might expect a failed `startTracking` to return to idle. When it is
  already tracking, the code leaves the previous record, path and marker in
  place, because it returns before touching any state (src/App.tsx:96-98).

## Model

| member | source | states |
|---|---|---|
| `Sampler.SampleOrbit` | src/App.tsx:64-78 | the loop over dt = 0, step, … ≤ duration terminates for step > 0 and returns exactly `SampledPath` over the first `OffsetCount` offsets |
| `Sampler.OffsetCount` | src/App.tsx:66 | the number n of offsets the loop visits: (n-1)·step ≤ duration < n·step, and n > 0 when duration ≥ 0 |
| `Sampler.WithinWindow` | src/App.tsx:66 | an offset k·step passes the loop guard exactly when k < OffsetCount |
| `Sampler.SampledPath` | src/App.tsx:66-76 | the path from n offsets has at most n entries |
| `Sampler.Hits` | src/App.tsx:68-69 | the indices of the instants that have a position, strictly increasing; an index is in the list iff propagation gives a position there |
| `Sampler.SampledAtHits` | src/App.tsx:66-75 | entry i of the path is the `[lon, lat, h·1000]` sample of the i-th offset that has a position; skipped instants do not stop later ones |
| `Sampler.SampledAll` | src/App.tsx:68-75 | when every instant has a position, the path has one entry per offset |
| `Sampler.PathShape` | src/App.tsx:64-78 | the path has at most duration/step + 1 entries, each the sample of an offset that has a position, with strictly increasing sample times |
| `Sampler.FullPath` | src/App.tsx:64-78 | when every instant in the window has a position, the path has exactly duration/step + 1 entries |
| `Policy.Round` | src/App.tsx:113-114 | `Math.round(x)` is the integer r with r - 0.5 ≤ x < r + 0.5 (halves round up) |
| `Policy.OrbitalPeriodMinutes` | src/App.tsx:80-88 | the period is positive; it is 2π/`no` (period · `no` = 2π) when `no` is a positive finite number, and 90 otherwise |
| `Policy.DurationSeconds` | src/App.tsx:113 | the window is at least 600 s; once the period is at least 599.5 s it is the period to the nearest second, and 600 below that, so every period gets exactly `Math.max(600, Math.round(period·60))` |
| `Policy.SampleSeconds` | src/App.tsx:114 | the step is at least 5 s; 240 steps cover the window to within 120 s once the window is at least 1320 s; it is 5 below 1320 s, so every window has its step pinned |
| `Policy.StepCountBounds` | src/App.tsx:113-114 | any window of at least 600 s holds between 120 and 263 whole steps |
| `Policy.SamplesPerPath` | src/App.tsx:112-116 | for every record the window is ≥ 600 s, the step ≥ 5 s, and the sampler visits 121 to 264 instants |
| `Policy.Clamp` | src/App.tsx:48 | `Math.max(lo, Math.min(hi, x))` lies in [lo, hi]; it is x when x already does, hi when x is above and lo when x is below |
| `Policy.RawSize` | src/App.tsx:47 | where the unclamped size 12·10⁶/(dist+10⁶) lies for each range of distances |
| `Policy.MarkerPixelSize` | src/App.tsx:46-48 | the size lies in [6, 20]; it is 12 at distance 0, 6 from 10⁶ m on, 20 between -10⁶ and -4·10⁵ m (including the division by zero), and exactly 12·10⁶/(dist+10⁶) in between |
| `Policy.MarkerSizeNonIncreasing` | src/App.tsx:47-48 | for -10⁶ ≤ d1 ≤ d2 the size at d2 is at most the size at d1 |
| `JsString.TrimStart` | src/App.tsx:94 | a suffix of the input that starts with a non-blank; everything removed is whitespace |
| `JsString.TrimEnd` | src/App.tsx:94 | a prefix of the input that ends with a non-blank; everything removed is whitespace |
| `JsString.Trim` | src/App.tsx:94 | `trim()` keeps a contiguous slice that starts and ends with a non-blank; everything removed at either end is whitespace |
| `JsString.TrimIdempotent` | src/App.tsx:94 | trimming a trimmed line changes nothing |
| `Tracking.PredictedPathSize` | src/App.tsx:112-116 | the path drawn at start has at most 264 points, whatever the record |
| `Tracking.SamplePredictedPath` | src/App.tsx:112-116 | the period, window, step and sampler run yield the record's `PredictedPath` |
| `Tracking.Tracker.constructor` | src/App.tsx:14-19 | the first render: all refs null, not tracking, nothing in the viewer |
| `Tracking.Tracker.AttachViewer` | src/App.tsx:21-36 | the mount effect makes the viewer available and keeps the invariant |
| `Tracking.Tracker.MarkerPosition` | src/App.tsx:142-159 | the position callback yields a position iff a record is held and propagation at the clock's time gives one; the position is the Earth-fixed vector in metres |
| `Tracking.Tracker.Start` | src/App.tsx:90-192 | without a viewer, or when the trimmed lines do not parse, nothing changes; otherwise the new record and start time are stored, the old polyline and marker are removed before exactly one new polyline (the predicted path) and one new marker are added, and tracking is on |
| `Tracking.Tracker.Track` | src/App.tsx:95-192 | after a successful parse: record and start time stored, polyline = `PredictedPath(record, now)`, new marker, marker size 12, entity calls in the order remove-old then add-new, tracking on |
| `Tracking.Tracker.ReplaceEntities` | src/App.tsx:119-181 | the held polyline and marker are removed, then one polyline and one marker with fresh identities are added and held; the viewer then holds exactly those two |
| `Tracking.Tracker.AddEntity` | src/App.tsx:128-139 | `entities.add` puts an entity with the next fresh identity into the collection and logs the call |
| `Tracking.Tracker.RemoveEntities` | src/App.tsx:198-201 | the held polyline and marker, when present, are removed from the viewer in that order and their refs cleared |
| `Tracking.Tracker.Stop` | src/App.tsx:195-204 | without a viewer nothing changes; otherwise both entities are removed, the three refs are cleared, tracking is off and the position callback yields no position at any time; stopping when not tracking changes nothing, so a second stop is a no-op |
| `Tracking.Tracker.PreUpdate` | src/App.tsx:40-55 | with a marker whose position is known, its pixel size becomes `MarkerPixelSize` of the camera distance; otherwise it is unchanged; the size stays in [6, 20] |

## Left out

- The `satellite.js` functions (`twoline2satrec`, `propagate`, `gstime`, `eciToGeodetic`, `eciToEcf`, `degreesLong`, `degreesLat`) are opaque parameters. The library's source is not part of this model, and neither are its TLE checksum and column checks.
- Exceptions thrown by the library outside parsing are not modelled. This covers the `try`/`catch` in the position callback and the pre-update handler. Parsing failure is an `Option`, and `propagate`'s falsy position is `None`.
- Cesium: the viewer's construction options, lighting, the clock set-up in `startTracking` (current time, animation, multiplier, clock range), `Cartesian3.fromDegrees` on the path, polyline material, label, `BoundingSphere` and `camera.flyTo`, registration and removal of the pre-update listener, and `viewer.destroy`. The polyline entity holds the geodetic samples in place of their Cartesian conversion.
- The check of `viewer.clock` in the position callback. A viewer always has a clock.
- React state and UI: the text areas, the speed slider and the effect that forwards the speed to the clock, and the `alert` on a bad TLE. The alert is the `InvalidTle` outcome of `Start`.
- Floating point: numbers are reals. `NaN`/`Infinity` for the mean motion is `None`. `Math.PI` is its printed decimal.
- `Policy.OrbitalPeriodMinutes`: a positive mean motion so small that 2π/`no` overflows to `Infinity` in doubles gets the real quotient here, not the 90-minute fallback.
- `Policy.MarkerPixelSize`: `NaN` distances are not modelled. The division by zero at distance -10⁶ is modelled as JavaScript's `+Infinity`.
- The wall clock: the `now` of `startTracking` and the viewer clock's current time are parameters.
- The default arguments of `sampleOrbit` (60 s, 5400 s). Its only caller always passes both.
