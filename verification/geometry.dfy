/** Plane geometry shared by the drawing reader, the room metrics and the
    material estimator: points, vertex chains, axis-aligned bounds, and the
    record of a reconstructed face as the geometry library reports it. */
module Geometry {

  /** A point of the drawing, in drawing units. */
  datatype Point = Point(x: real, y: real)

  /** An ordered vertex list, the shape of one line string. */
  type Chain = seq<Point>

  /** A chain whose last point repeats its first. */
  predicate IsClosed(c: Chain) {
    |c| > 0 && c[0] == c[|c| - 1]
  }

  /** Axis-aligned bounding box, in the order (minx, miny, maxx, maxy). */
  datatype Bounds = Bounds(minx: real, miny: real, maxx: real, maxy: real) {

    predicate Valid() {
      minx <= maxx && miny <= maxy
    }

    function Width(): real {
      maxx - minx
    }

    function Height(): real {
      maxy - miny
    }
  }

  /** What became of offsetting a face inward by the wall thickness. */
  datatype BufferOutcome =
    | Region(regionArea: real)  // a non-empty inset region, with its area
    | Collapsed                 // the inset region is empty
    | Raised                    // the offset computation raised

  /** A reconstructed face: its area, boundary length and bounds, and the
      outcome of offsetting it inward by the run's wall thickness. The
      geometry that produces these numbers is not part of this model. */
  datatype Polygon = Polygon(area: real, length: real, bounds: Bounds, inset: BufferOutcome) {

    /** The facts any real planar face has: non-negative measures and ordered
        bounds; and, because the inset is an offset by a non-negative wall
        thickness, an inset no larger than the face (an offset by a negative
        thickness would grow the face instead). */
    predicate Valid() {
      && area >= 0.0
      && length >= 0.0
      && bounds.Valid()
      && (inset.Region? ==> 0.0 <= inset.regionArea <= area)
    }
  }
}
