/** Small value types shared by every part of the model. */
module Common {

  /** A value that may be absent: `null`/`undefined` in the program. */
  datatype Option<+T> = None | Some(value: T) {

    /** The carried value, or `default` when absent (the `x ?? default` idiom). */
    function GetOr(default: T): T {
      match this
      case Some(v) => v
      case None => default
    }
  }

  /** How an awaited promise settles: with a value, or by rejecting. */
  datatype Attempt<+T> = Resolved(value: T) | Rejected

  /** A geographic rectangle in degrees. */
  datatype BoundingBox = BoundingBox(north: real, south: real, east: real, west: real)

  /** A point on the globe in degrees, as `Cartographic` converted with `toDegrees`. */
  datatype GeoPoint = GeoPoint(latitude: real, longitude: real)
}
