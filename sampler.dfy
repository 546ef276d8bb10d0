/**
 * `sampleOrbit`: the predicted path, one geodetic point per instant
 * `now + dt` for dt = 0, step, 2·step, … up to the window, skipping the
 * instants at which propagation yields no position.
 */
module Sampler {
  import opened Wrappers
  import opened Satellite
  import opened Arith

  /** One path entry `[lon, lat, h * 1000]`: degrees, degrees, metres. */
  datatype PathPoint = PathPoint(lon: real, lat: real, height: real)

  /** The instant `dt` seconds after `now`. */
  function InstantAfter(now: Instant, dt: int): Instant
  {
    now + dt * 1000
  }

  /** The point sampled at offset `dt`, or none when propagation yields no position. */
  function SampleAt(lib: Library, satrec: SatRec, now: Instant, dt: int): Option<PathPoint>
  {
    var t := InstantAfter(now, dt);
    match lib.propagate(satrec, t)
    case None => None
    case Some(eci) =>
      var geo := lib.eciToGeodetic(eci, lib.gstime(t));
      Some(PathPoint(lib.degreesLong(geo.longitude), lib.degreesLat(geo.latitude), geo.height * 1000.0))
  }

  /** What one iteration of the loop appends: the point, or nothing (`continue`). */
  function Emitted(sample: Option<PathPoint>): seq<PathPoint>
  {
    if sample.Some? then [sample.value] else []
  }

  /** How many of the offsets 0, step, 2·step, … are at most `duration`. */
  function OffsetCount(step: int, duration: int): (n: nat)
    requires step > 0
    ensures n * step > duration
    ensures n > 0 ==> (n - 1) * step <= duration
    ensures duration >= 0 ==> n > 0
  {
    if duration < 0 then 0
    else
      var q := duration / step;
      assert q * step <= duration < (q + 1) * step;
      q + 1
  }

  /** An offset k·step is within the window exactly when it is one of the first OffsetCount offsets. */
  lemma WithinWindow(step: int, duration: int, k: nat)
    requires step > 0
    ensures k * step <= duration <==> k < OffsetCount(step, duration)
  {
    var n := OffsetCount(step, duration);
    if k < n {
      MulMonotone(k, n - 1, step);
    } else {
      MulMonotone(n, k, step);
    }
  }

  /** The path built from the first `n` offsets 0, step, …, (n-1)·step, in that order. */
  function SampledPath(lib: Library, satrec: SatRec, now: Instant, step: int, n: nat): (path: seq<PathPoint>)
    ensures |path| <= n
  {
    if n == 0 then []
    else SampledPath(lib, satrec, now, step, n - 1) + Emitted(SampleAt(lib, satrec, now, (n - 1) * step))
  }

  /**
   * The offset indices below `n` whose instant has a position, in increasing
   * order: exactly the indices at which the sample exists.
   */
  function Hits(lib: Library, satrec: SatRec, now: Instant, step: int, n: nat): (hits: seq<nat>)
    ensures forall i :: 0 <= i < |hits| ==> hits[i] < n
    ensures forall i, j :: 0 <= i < j < |hits| ==> hits[i] < hits[j]
    ensures forall k :: 0 <= k < n ==> (k in hits <==> SampleAt(lib, satrec, now, k * step).Some?)
  {
    if n == 0 then []
    else
      var init := Hits(lib, satrec, now, step, n - 1);
      if SampleAt(lib, satrec, now, (n - 1) * step).Some? then init + [n - 1] else init
  }

  /**
   * Entry i of the path is the sample at the i-th offset that has a
   * position; offsets without one contribute nothing and do not stop the
   * offsets after them from being sampled.
   */
  lemma {:induction false} SampledAtHits(lib: Library, satrec: SatRec, now: Instant, step: int, n: nat)
    ensures var path := SampledPath(lib, satrec, now, step, n);
            var hits := Hits(lib, satrec, now, step, n);
            |path| == |hits| &&
            forall i :: 0 <= i < |path| ==> SampleAt(lib, satrec, now, hits[i] * step) == Some(path[i])
  {
    if n > 0 {
      SampledAtHits(lib, satrec, now, step, n - 1);
      var path, hits := SampledPath(lib, satrec, now, step, n), Hits(lib, satrec, now, step, n);
      var prev, prevHits := SampledPath(lib, satrec, now, step, n - 1), Hits(lib, satrec, now, step, n - 1);
      var sample := SampleAt(lib, satrec, now, (n - 1) * step);
      assert path == prev + Emitted(sample);
      assert hits == prevHits + (if sample.Some? then [n - 1] else []);
      forall i | 0 <= i < |path|
        ensures SampleAt(lib, satrec, now, hits[i] * step) == Some(path[i])
      {
        if i < |prev| {
          assert path[i] == prev[i] && hits[i] == prevHits[i];
        }
      }
    }
  }

  /** When every instant has a position, the path has one entry per offset. */
  lemma {:induction false} SampledAll(lib: Library, satrec: SatRec, now: Instant, step: int, n: nat)
    requires forall k :: 0 <= k < n ==> SampleAt(lib, satrec, now, k * step).Some?
    ensures |SampledPath(lib, satrec, now, step, n)| == n
  {
    if n > 0 {
      SampledAll(lib, satrec, now, step, n - 1);
    }
  }

  /** The path `sampleOrbit(satrec, now, step, duration)` returns. */
  function OrbitPath(lib: Library, satrec: SatRec, now: Instant, step: int, duration: int): seq<PathPoint>
    requires step > 0
  {
    SampledPath(lib, satrec, now, step, OffsetCount(step, duration))
  }

  /**
   * The shape of the sampled path: at most duration/step + 1 entries; entry
   * i is the sample at the i-th offset that has one, so the entries' sample
   * times strictly increase.
   */
  lemma PathShape(lib: Library, satrec: SatRec, now: Instant, step: int, duration: int)
    requires step > 0 && duration >= 0
    ensures var path := OrbitPath(lib, satrec, now, step, duration);
            var hits := Hits(lib, satrec, now, step, OffsetCount(step, duration));
            && |path| == |hits| <= duration / step + 1
            && (forall i :: 0 <= i < |path| ==> SampleAt(lib, satrec, now, hits[i] * step) == Some(path[i]))
            && (forall i, j :: 0 <= i < j < |path| ==>
                  InstantAfter(now, hits[i] * step) < InstantAfter(now, hits[j] * step))
  {
    var hits := Hits(lib, satrec, now, step, OffsetCount(step, duration));
    SampledAtHits(lib, satrec, now, step, OffsetCount(step, duration));
    forall i, j | 0 <= i < j < |hits|
      ensures InstantAfter(now, hits[i] * step) < InstantAfter(now, hits[j] * step)
    {
      MulStrict(hits[i], hits[j], step);
    }
  }

  /** When every instant in the window has a position, the path has duration/step + 1 entries. */
  lemma FullPath(lib: Library, satrec: SatRec, now: Instant, step: int, duration: int)
    requires step > 0 && duration >= 0
    requires forall k: nat :: k * step <= duration ==> SampleAt(lib, satrec, now, k * step).Some?
    ensures |OrbitPath(lib, satrec, now, step, duration)| == duration / step + 1
  {
    var n := OffsetCount(step, duration);
    forall k | 0 <= k < n
      ensures SampleAt(lib, satrec, now, k * step).Some?
    {
      WithinWindow(step, duration, k);
    }
    SampledAll(lib, satrec, now, step, n);
  }

  /**
   * `sampleOrbit`: walks dt = 0, step, 2·step, … while dt <= duration and
   * appends `[lon, lat, h * 1000]` for every instant that has a position.
   */
  method SampleOrbit(lib: Library, satrec: SatRec, now: Instant, sampleSeconds: int, durationSeconds: int)
    returns (positions: seq<PathPoint>)
    requires sampleSeconds > 0
    ensures positions == SampledPath(lib, satrec, now, sampleSeconds, OffsetCount(sampleSeconds, durationSeconds))
  {
    positions := [];
    var dt := 0;
    ghost var k: nat := 0;
    while dt <= durationSeconds
      invariant dt == k * sampleSeconds
      invariant k <= OffsetCount(sampleSeconds, durationSeconds)
      invariant positions == SampledPath(lib, satrec, now, sampleSeconds, k)
      decreases durationSeconds - dt
    {
      WithinWindow(sampleSeconds, durationSeconds, k);
      ghost var before := positions;
      ghost var sample := SampleAt(lib, satrec, now, dt);
      assert SampledPath(lib, satrec, now, sampleSeconds, k + 1) == before + Emitted(sample);
      var t := InstantAfter(now, dt);
      var pv := lib.propagate(satrec, t);
      if pv.Some? {
        var gmst := lib.gstime(t);
        var geo := lib.eciToGeodetic(pv.value, gmst);
        var lon := lib.degreesLong(geo.longitude);
        var lat := lib.degreesLat(geo.latitude);
        var h := geo.height;
        assert sample == Some(PathPoint(lon, lat, h * 1000.0));
        positions := positions + [PathPoint(lon, lat, h * 1000.0)];
      } else {
        assert sample == None;
      }
      assert positions == before + Emitted(sample);
      assert dt + sampleSeconds == (k + 1) * sampleSeconds;
      dt := dt + sampleSeconds;
      k := k + 1;
    }
    WithinWindow(sampleSeconds, durationSeconds, k);
  }
}
