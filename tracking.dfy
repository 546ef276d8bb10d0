/**
 * The tracking lifecycle of the `TLECesiumTracker` component: the refs it
 * keeps between renders (`satrecRef`, `startTimeRef`, `pathEntityRef`,
 * `satEntityRef`), the `tracking` flag, the viewer's entity collection, and
 * the per-frame marker position and size.
 */
module Tracking {
  import opened Wrappers
  import opened Satellite
  import opened JsString
  import opened Policy
  import opened Sampler

  /** An entity added to the viewer: the orbit polyline, or the satellite marker. */
  datatype Entity = PathEntity(id: nat, positions: seq<PathPoint>) | MarkerEntity(id: nat)

  /** A call on `viewer.entities`. */
  datatype EntityOp = Add(entity: Entity) | Remove(entity: Entity)

  /** The entity a ref holds, as a set: empty when the ref is null. */
  function Held(ref: Option<Entity>): set<Entity>
  {
    if ref.Some? then {ref.value} else {}
  }

  /** The removal call made for a ref that may be null. */
  function RemovalOf(ref: Option<Entity>): seq<EntityOp>
  {
    if ref.Some? then [Remove(ref.value)] else []
  }

  /**
   * The path `startTracking` draws for a record parsed at `now`: the window
   * and step come from the record's period, and the sampler runs from `now`.
   */
  function PredictedPath(lib: Library, satrec: SatRec, now: Instant): seq<PathPoint>
  {
    var periodMin := OrbitalPeriodMinutes(satrec.no);
    var durationSeconds := DurationSeconds(periodMin);
    var sampleSeconds := SampleSeconds(durationSeconds);
    OrbitPath(lib, satrec, now, sampleSeconds, durationSeconds)
  }

  /**
   * Whatever the record, the path drawn when tracking starts has at most 264
   * points: the policy's window holds at most 264 sampled instants.
   */
  lemma PredictedPathSize(lib: Library, satrec: SatRec, now: Instant)
    ensures |PredictedPath(lib, satrec, now)| <= 264
  {
    var durationSeconds := DurationSeconds(OrbitalPeriodMinutes(satrec.no));
    var sampleSeconds := SampleSeconds(durationSeconds);
    SamplesPerPath(satrec.no);
    PathShape(lib, satrec, now, sampleSeconds, durationSeconds);
  }

  /** The period, window, step and sampler run at the heart of `startTracking`. */
  method SamplePredictedPath(lib: Library, satrec: SatRec, now: Instant) returns (path: seq<PathPoint>)
    ensures path == PredictedPath(lib, satrec, now)
  {
    var periodMin := OrbitalPeriodMinutes(satrec.no);
    var durationSeconds := DurationSeconds(periodMin);
    var sampleSeconds := SampleSeconds(durationSeconds);
    path := SampleOrbit(lib, satrec, now, sampleSeconds, durationSeconds);
  }

  /** How a call of `startTracking` ended. */
  datatype StartOutcome = NoViewer | InvalidTle | Started

  class Tracker {
    const lib: Library
    /** `viewerRef.current` is set: the viewer has been created. */
    var viewerReady: bool
    var satrec: Option<SatRec>
    var startTime: Option<Instant>
    var pathEntity: Option<Entity>
    var satEntity: Option<Entity>
    var tracking: bool
    /** The `pixelSize` of the marker's point. */
    var markerSize: real
    /** The contents of `viewer.entities`. */
    var entities: set<Entity>
    /** Every call made on `viewer.entities`, oldest first. */
    var entityLog: seq<EntityOp>
    /** Identity of the next entity the viewer hands out. */
    var nextId: nat

    /**
     * The refs agree with each other and with the viewer: while tracking
     * the record, both entities and a start time are held, and the polyline
     * is the record's predicted path from that start time; the entities
     * left in the viewer are exactly the ones the refs hold.
     */
    ghost predicate Valid()
      reads this
    {
      && (tracking <==> satrec.Some?)
      && (tracking <==> pathEntity.Some?)
      && (tracking <==> satEntity.Some?)
      && (tracking ==> startTime.Some?)
      && (pathEntity.Some? ==> pathEntity.value.PathEntity?)
      && (satEntity.Some? ==> satEntity.value.MarkerEntity?)
      && (tracking ==> pathEntity.value.positions == PredictedPath(lib, satrec.value, startTime.value))
      && entities == Held(pathEntity) + Held(satEntity)
      && (forall e :: e in entities ==> e.id < nextId)
      && 6.0 <= markerSize <= 20.0
    }

    /** The component's first render: every ref null, nothing in the viewer. */
    constructor (lib: Library)
      ensures Valid() && this.lib == lib
      ensures !viewerReady && !tracking
      ensures satrec.None? && startTime.None? && pathEntity.None? && satEntity.None?
      ensures entities == {} && entityLog == []
    {
      this.lib := lib;
      viewerReady := false;
      satrec := None;
      startTime := None;
      pathEntity := None;
      satEntity := None;
      tracking := false;
      markerSize := 12.0;
      entities := {};
      entityLog := [];
      nextId := 0;
    }

    /** The mount effect stores the new viewer in `viewerRef`. */
    method AttachViewer()
      requires Valid()
      modifies this`viewerReady
      ensures Valid() && viewerReady
    {
      viewerReady := true;
    }

    /**
     * The marker's position callback: the record propagated to the viewer
     * clock's time, in Earth-fixed metres; no position when there is no
     * record or propagation yields none.
     */
    function MarkerPosition(clockTime: Instant): (pos: Option<Vec3>)
      reads this
      ensures pos.Some? <==> satrec.Some? && lib.propagate(satrec.value, clockTime).Some?
      ensures pos.Some? ==>
        var ecf := lib.eciToEcf(lib.propagate(satrec.value, clockTime).value, lib.gstime(clockTime));
        pos.value == Vec3(ecf.x * 1000.0, ecf.y * 1000.0, ecf.z * 1000.0)
    {
      match satrec
      case None => None
      case Some(s) =>
        match lib.propagate(s, clockTime)
        case None => None
        case Some(eci) =>
          var ecf := lib.eciToEcf(eci, lib.gstime(clockTime));
          Some(Vec3(ecf.x * 1000.0, ecf.y * 1000.0, ecf.z * 1000.0))
    }

    /**
     * `startTracking`. Without a viewer, or when the trimmed lines do not
     * parse, nothing changes. Otherwise the new record and start time are
     * stored, the old polyline and marker are removed from the viewer, and
     * then exactly one new polyline (the predicted path) and one new marker
     * are added and held.
     */
    method Start(tle1: string, tle2: string, now: Instant) returns (outcome: StartOutcome)
      requires Valid()
      modifies this
      ensures Valid() && viewerReady == old(viewerReady)
      ensures outcome == NoViewer <==> !old(viewerReady)
      ensures outcome == InvalidTle <==> old(viewerReady) && lib.twoline2satrec(Trim(tle1), Trim(tle2)).None?
      ensures outcome != Started ==> unchanged(this)
      ensures outcome == Started ==>
        && satrec == lib.twoline2satrec(Trim(tle1), Trim(tle2))
        && startTime == Some(now)
        && tracking
        && pathEntity == Some(PathEntity(old(nextId), PredictedPath(lib, satrec.value, now)))
        && satEntity == Some(MarkerEntity(old(nextId) + 1))
        && markerSize == 12.0
        && nextId == old(nextId) + 2
        && entities == {pathEntity.value, satEntity.value}
        && entityLog == old(entityLog) + RemovalOf(old(pathEntity)) + RemovalOf(old(satEntity))
                        + [Add(pathEntity.value), Add(satEntity.value)]
    {
      if !viewerReady {
        return NoViewer;
      }
      var parsed := lib.twoline2satrec(Trim(tle1), Trim(tle2));
      if parsed.None? {
        return InvalidTle;
      }
      Track(parsed.value, now);
      outcome := Started;
    }

    /**
     * The part of `startTracking` after a successful parse: store the record
     * and start time, sample the predicted path, swap the old polyline and
     * marker for new ones, and set the tracking flag.
     */
    method Track(record: SatRec, now: Instant)
      requires Valid()
      modifies this
      ensures Valid() && viewerReady == old(viewerReady)
      ensures satrec == Some(record) && startTime == Some(now) && tracking
      ensures pathEntity == Some(PathEntity(old(nextId), PredictedPath(lib, record, now)))
      ensures satEntity == Some(MarkerEntity(old(nextId) + 1))
      ensures markerSize == 12.0 && nextId == old(nextId) + 2
      ensures entities == {pathEntity.value, satEntity.value}
      ensures entityLog == old(entityLog) + RemovalOf(old(pathEntity)) + RemovalOf(old(satEntity))
                           + [Add(pathEntity.value), Add(satEntity.value)]
    {
      satrec := Some(record);
      startTime := Some(now);
      var pathPositions := SamplePredictedPath(lib, record, now);
      ReplaceEntities(pathPositions);
      tracking := true;
    }

    /**
     * Removes the old polyline and marker, when held, then adds a polyline
     * through `positions` and a fresh marker, and holds both.
     */
    method ReplaceEntities(positions: seq<PathPoint>)
      requires entities == Held(pathEntity) + Held(satEntity)
      requires forall e :: e in entities ==> e.id < nextId
      modifies this`entities, this`entityLog, this`pathEntity, this`satEntity, this`markerSize, this`nextId
      ensures pathEntity == Some(PathEntity(old(nextId), positions))
      ensures satEntity == Some(MarkerEntity(old(nextId) + 1))
      ensures markerSize == 12.0 && nextId == old(nextId) + 2
      ensures entities == {pathEntity.value, satEntity.value}
      ensures entityLog == old(entityLog) + RemovalOf(old(pathEntity)) + RemovalOf(old(satEntity))
                           + [Add(pathEntity.value), Add(satEntity.value)]
    {
      RemoveEntities();

      var path := PathEntity(nextId, positions);
      AddEntity(path);
      pathEntity := Some(path);

      var marker := MarkerEntity(nextId);
      AddEntity(marker);
      satEntity := Some(marker);
      markerSize := 12.0;
    }

    /** `viewer.entities.add`: the entity, with the next fresh identity, joins the collection. */
    method AddEntity(e: Entity)
      requires e.id == nextId
      modifies this`entities, this`entityLog, this`nextId
      ensures nextId == old(nextId) + 1
      ensures entities == old(entities) + {e}
      ensures entityLog == old(entityLog) + [Add(e)]
    {
      entities := entities + {e};
      entityLog := entityLog + [Add(e)];
      nextId := nextId + 1;
    }

    /**
     * Takes the polyline and the marker, when held, out of the viewer and
     * clears their refs.
     */
    method RemoveEntities()
      modifies this`entities, this`entityLog, this`pathEntity, this`satEntity
      ensures pathEntity.None? && satEntity.None?
      ensures entities == old(entities) - Held(old(pathEntity)) - Held(old(satEntity))
      ensures entityLog == old(entityLog) + RemovalOf(old(pathEntity)) + RemovalOf(old(satEntity))
    {
      if pathEntity.Some? {
        entities := entities - {pathEntity.value};
        entityLog := entityLog + [Remove(pathEntity.value)];
        pathEntity := None;
      }
      if satEntity.Some? {
        entities := entities - {satEntity.value};
        entityLog := entityLog + [Remove(satEntity.value)];
        satEntity := None;
      }
    }

    /**
     * `stopTracking`. Without a viewer nothing changes. Otherwise the
     * polyline and marker are removed from the viewer, all three refs are
     * cleared and tracking ends; the start time is kept. Stopping a tracker
     * that is not tracking changes nothing, so a second stop is a no-op.
     */
    method Stop()
      requires Valid()
      modifies this
      ensures Valid() && viewerReady == old(viewerReady)
      ensures !old(viewerReady) || !old(tracking) ==> unchanged(this)
      ensures old(viewerReady) ==>
        && !tracking && satrec.None? && pathEntity.None? && satEntity.None?
        && entities == {}
        && (forall t :: MarkerPosition(t).None?)
        && startTime == old(startTime) && markerSize == old(markerSize) && nextId == old(nextId)
        && entityLog == old(entityLog) + RemovalOf(old(pathEntity)) + RemovalOf(old(satEntity))
    {
      if !viewerReady {
        return;
      }
      RemoveEntities();
      assert !old(tracking) ==> entityLog == old(entityLog) && entities == old(entities);
      satrec := None;
      tracking := false;
    }

    /**
     * The scene's pre-update handler: with a marker whose position is known,
     * its pixel size follows the camera distance; otherwise it is left alone.
     */
    method PreUpdate(clockTime: Instant, distanceTo: Vec3 -> real)
      requires Valid()
      modifies this`markerSize
      ensures Valid()
      ensures satEntity.Some? && MarkerPosition(clockTime).Some? ==>
        markerSize == MarkerPixelSize(distanceTo(MarkerPosition(clockTime).value))
      ensures satEntity.None? || MarkerPosition(clockTime).None? ==> markerSize == old(markerSize)
    {
      if satEntity.None? {
        return;
      }
      var position := MarkerPosition(clockTime);
      if position.None? {
        return;
      }
      var dist := distanceTo(position.value);
      markerSize := MarkerPixelSize(dist);
    }
  }
}
