/** Points in the plane, shared by the canvas renderer and the server-side generators. */
module Geometry {
  /** A point with exact rational coordinates. */
  datatype Point = Point(x: real, y: real)

  /** The point at angle 2πk/n on the circle of the given radius about `centre`,
      that is `centre + radius * (cos(2πk/n), sin(2πk/n))`. It is kept symbolic
      because its coordinates need cosine and sine. */
  datatype PolarPoint = PolarPoint(centre: Point, radius: real, k: int, n: int)
}
