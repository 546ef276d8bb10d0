/**
 * The parts of the satellite.js library that the tracker calls. The library's
 * source is not part of this model, so its functions are opaque: a `Library`
 * value bundles one arbitrary total function per call, and every operation of
 * the model is proved for all of them.
 */
module Satellite {
  import opened Wrappers

  /** A JavaScript `Date`, as milliseconds since the Unix epoch (`getTime()`). */
  type Instant = int

  /** A position vector in kilometres (ECI or ECF, depending on the producer). */
  datatype Vec3 = Vec3(x: real, y: real, z: real)

  /** `eciToGeodetic`'s result: longitude and latitude in radians, height in kilometres. */
  datatype Geodetic = Geodetic(longitude: real, latitude: real, height: real)

  /**
   * The satellite record built by `twoline2satrec`. The tracker itself reads
   * only the mean motion `no` (radians per minute; `None` when it is not a
   * finite number). Every other field is read by the library alone.
   */
  datatype SatRec = SatRec(no: Option<real>, fields: map<string, real>)

  /** The library calls the tracker makes. */
  datatype Library = Library(
    /** `None` when parsing the two lines throws. */
    twoline2satrec: (string, string) -> Option<SatRec>,
    /** The ECI position of `propagate(satrec, t)`; `None` when `pv.position` is falsy. */
    propagate: (SatRec, Instant) -> Option<Vec3>,
    /** Greenwich mean sidereal time at an instant, in radians. */
    gstime: Instant -> real,
    eciToGeodetic: (Vec3, real) -> Geodetic,
    eciToEcf: (Vec3, real) -> Vec3,
    /** Radians to degrees for a longitude and for a latitude. */
    degreesLong: real -> real,
    degreesLat: real -> real)
}
