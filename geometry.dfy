/** Vector arithmetic the two scripts do themselves (add_vectors, scale_vector,
    subtract_vectors, cross_vectors), and the geometry library they call, as a
    record of functions the pipelines receive as a parameter. Nothing is known
    about a library function beyond its signature, except what a lemma asks
    for explicitly through one of the predicates at the end of this module. */
module Geometry {

  datatype Point = Point(x: real, y: real, z: real)

  /** add_vectors */
  function Add(a: Point, b: Point): Point {
    Point(a.x + b.x, a.y + b.y, a.z + b.z)
  }

  /** scale_vector */
  function Scale(v: Point, k: real): Point {
    Point(k * v.x, k * v.y, k * v.z)
  }

  /** subtract_vectors */
  function Sub(a: Point, b: Point): Point {
    Point(a.x - b.x, a.y - b.y, a.z - b.z)
  }

  /** cross_vectors */
  function Cross(a: Point, b: Point): Point {
    Point(a.y * b.z - a.z * b.y, a.z * b.x - a.x * b.z, a.x * b.y - a.y * b.x)
  }

  function Dot(a: Point, b: Point): real {
    a.x * b.x + a.y * b.y + a.z * b.z
  }

  /** A line through two points, and a plane as (base point, normal). */
  type Line = (Point, Point)
  type Plane = (Point, Point)

  /** A COMPAS Frame: origin and three axes. */
  datatype Frame = Frame(point: Point, xaxis: Point, yaxis: Point, zaxis: Point)

  /** The COMPAS calls both scripts make, left uninterpreted. */
  datatype Library = Library(
    /** offset_polygon(polygon, distance) */
    offsetPolygon: (seq<Point>, real) -> seq<Point>,
    /** intersection_line_plane(line, plane) */
    intersectionLinePlane: (Line, Plane) -> Point,
    /** Frame(point, xaxis, yaxis): unitizes and orthogonalizes the axes */
    makeFrame: (Point, Point, Point) -> Frame,
    /** pca_numpy(points), reduced to (origin, axes[0], axes[1]) */
    pca: seq<Point> -> (Point, Point, Point),
    /** transform_points(points, Transformation.from_frame_to_frame(frame, Frame.worldXY())) */
    toWorldXY: (Frame, seq<Point>) -> seq<Point>,
    /** transform_points(points, X.inverse()) for the same X */
    fromWorldXY: (Frame, seq<Point>) -> seq<Point>,
    /** bounding_box_xy(points) */
    boundingBoxXY: seq<Point> -> seq<Point>,
    /** angles_vectors(u, v)[0] != 0 */
    anglesDiffer: (Point, Point) -> bool
  )

  /** offset_polygon returns one vertex per input vertex. */
  ghost predicate OffsetKeepsSize(lib: Library) {
    forall s: seq<Point>, d: real :: |lib.offsetPolygon(s, d)| == |s|
  }

  /** The library's size facts the beam pipeline relies on: offset_polygon and
      transform_points keep the number of points, bounding_box_xy returns its
      four corners. */
  ghost predicate BeamSizes(lib: Library) {
    OffsetKeepsSize(lib) &&
    (forall f: Frame, s: seq<Point> :: |lib.fromWorldXY(f, s)| == |s|) &&
    (forall s: seq<Point> :: |lib.boundingBoxXY(s)| == 4)
  }

  /** p lies on the plane (base, normal). */
  ghost predicate OnPlane(p: Point, plane: Plane) {
    Dot(Sub(p, plane.0), plane.1) == 0.0
  }

  /** intersection_line_plane returns a point of the plane it is given. */
  ghost predicate IntersectionOnPlane(lib: Library) {
    forall line: Line, plane: Plane :: OnPlane(lib.intersectionLinePlane(line, plane), plane)
  }
}
