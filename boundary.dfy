/** Beams along the supported boundaries of the cablenet (texas/boundary.py).
    For each boundary name: select the boundary vertices carrying that
    constraint label, in boundary order; intersect each vertex's residual force
    line with a front and a back plane parallel to the boundary; cut the
    resulting points into groups of STEP; turn each group into a padded box
    in its best-fit frame and extrude it into a beam. */
module Boundary {
  import opened Geometry
  import opened Sequences
  import opened HexSolid

  const OFFSET: real := 0.200
  const PADDING: real := 0.020
  const THICKNESS: real := 0.04
  const NAMES: seq<string> := ["SOUTH", "NORTH"]
  /** Points per beam: three boundary vertices, two points each. */
  const STEP: nat := 6

  /** The cablenet queries the script makes. */
  datatype Cablenet = Cablenet(
    /** cablenet.vertices(), in iteration order */
    vertices: seq<nat>,
    /** cablenet.vertices_on_boundary(ordered=True) */
    boundary: seq<nat>,
    /** cablenet.vertex_coordinates(key) */
    xyz: nat -> Point,
    /** cablenet.residual(key) */
    residual: nat -> Point,
    /** the 'constraint' attribute of a vertex */
    constraint: nat -> string
  )

  /** Why the loop body for one name stops the script. */
  datatype Error =
      /** Reading l[0] of an empty selection raises IndexError. */
      EmptySelection(name: string)
      /** Frame(a, xaxis, yaxis) unitizes xaxis; a zero xaxis divides by zero. */
    | ZeroXAxis(name: string)

  datatype Outcome<T> = Success(value: T) | Failure(error: Error)

  datatype Option<T> = None | Some(value: T)

  // ----- selecting the boundary vertices -------------------------------------------

  /** cablenet.vertices_where({'constraint': name}) */
  function VerticesWhere(vertices: seq<nat>, constraint: nat -> string, name: string): (r: seq<nat>)
    ensures forall k :: k in r <==> k in vertices && constraint(k) == name
  {
    if vertices == [] then []
    else
      var rest := VerticesWhere(vertices[1..], constraint, name);
      if constraint(vertices[0]) == name then [vertices[0]] + rest else rest
  }

  /** [key for key in boundary if key in labelled]: exactly the boundary keys
      that are labelled, in boundary order. */
  function Select(boundary: seq<nat>, labelled: seq<nat>): (l: seq<nat>)
    ensures forall k :: k in l <==> k in boundary && k in labelled
    ensures IsSubsequence(l, boundary)
    ensures forall k :: multiset(l)[k] == if k in labelled then multiset(boundary)[k] else 0
  {
    if boundary == [] then []
    else
      var rest := Select(boundary[1..], labelled);
      assert boundary == [boundary[0]] + boundary[1..];
      if boundary[0] in labelled then
        assert ([boundary[0]] + rest)[1..] == rest;
        [boundary[0]] + rest
      else rest
  }

  /** The list `l` after line 64. */
  function Selection(net: Cablenet, name: string): seq<nat> {
    Select(net.boundary, VerticesWhere(net.vertices, net.constraint, name))
  }

  // ----- the boundary frame and the two planes ---------------------------------------

  /** The x axis handed to Frame: cross(yaxis, cross(b - a, yaxis)) with yaxis
      the world z axis, which is the chord from a to b made horizontal. */
  function ChordXAxis(a: Point, b: Point): (x: Point)
    ensures x == Point(b.x - a.x, b.y - a.y, 0.0)
  {
    var yaxis := Point(0.0, 0.0, 1.0);
    var zaxis := Cross(Sub(b, a), yaxis);
    Cross(yaxis, zaxis)
  }

  /** The x axis of frame_0: the chord from the first to the last selected vertex. */
  function BoundaryXAxis(net: Cablenet, l: seq<nat>): Point
    requires l != []
  {
    ChordXAxis(net.xyz(l[0]), net.xyz(l[|l| - 1]))
  }

  /** frame_0: at the first selected vertex, x along the chord to the last. */
  function BoundaryFrame(net: Cablenet, l: seq<nat>, lib: Library): Frame
    requires l != []
  {
    lib.makeFrame(net.xyz(l[0]), BoundaryXAxis(net, l), Point(0.0, 0.0, 1.0))
  }

  function FrontPlane(f0: Frame): Plane {
    (Add(f0.point, Scale(f0.zaxis, OFFSET)), f0.zaxis)
  }

  function BackPlane(f0: Frame): Plane {
    (Add(f0.point, Scale(f0.zaxis, OFFSET + THICKNESS)), f0.zaxis)
  }

  // ----- residual intersections ----------------------------------------------------

  /** The line from a vertex along its residual force. */
  function ResidualLine(net: Cablenet, key: nat): Line {
    (net.xyz(key), Add(net.xyz(key), net.residual(key)))
  }

  function FrontHit(net: Cablenet, f0: Frame, lib: Library, key: nat): Point {
    lib.intersectionLinePlane(ResidualLine(net, key), FrontPlane(f0))
  }

  function BackHit(net: Cablenet, f0: Frame, lib: Library, key: nat): Point {
    lib.intersectionLinePlane(ResidualLine(net, key), BackPlane(f0))
  }

  /** move_point_to_front: a back point shifted by -THICKNESS along frame_0's z. */
  function MovedToFront(p: Point, f0: Frame): Point {
    Add(p, Scale(f0.zaxis, -THICKNESS))
  }

  /** The two points one vertex contributes to pca_points. */
  function HitPair(net: Cablenet, f0: Frame, lib: Library, key: nat): seq<Point> {
    [FrontHit(net, f0, lib, key), MovedToFront(BackHit(net, f0, lib, key), f0)]
  }

  /** pca_points after the loop over l. */
  function PcaPoints(net: Cablenet, f0: Frame, lib: Library, l: seq<nat>): seq<Point> {
    if l == [] then [] else PcaPoints(net, f0, lib, l[..|l| - 1]) + HitPair(net, f0, lib, l[|l| - 1])
  }

  /** pca_points interleaves the vertices' front and moved back points. */
  lemma {:induction false} PcaPointsAt(net: Cablenet, f0: Frame, lib: Library, l: seq<nat>)
    ensures |PcaPoints(net, f0, lib, l)| == 2 * |l|
    ensures forall i :: 0 <= i < |l| ==>
      PcaPoints(net, f0, lib, l)[2 * i] == FrontHit(net, f0, lib, l[i]) &&
      PcaPoints(net, f0, lib, l)[2 * i + 1] == MovedToFront(BackHit(net, f0, lib, l[i]), f0)
  {
    if l != [] {
      var init := l[..|l| - 1];
      PcaPointsAt(net, f0, lib, init);
      forall i | 0 <= i < |l| - 1
        ensures l[i] == init[i]
      {
      }
    }
  }

  /** A back intersection moved by -THICKNESS lands on the front plane. */
  lemma MovedBackOnFrontPlane(p: Point, f0: Frame)
    requires OnPlane(p, BackPlane(f0))
    ensures OnPlane(MovedToFront(p, f0), FrontPlane(f0))
  {
    assert Sub(MovedToFront(p, f0), FrontPlane(f0).0) == Sub(p, BackPlane(f0).0);
  }

  /** All of pca_points lie on the front plane, so the PCA sees one flat layer. */
  lemma {:induction false} PcaPointsOnFrontPlane(net: Cablenet, f0: Frame, lib: Library, l: seq<nat>)
    requires IntersectionOnPlane(lib)
    ensures forall p :: p in PcaPoints(net, f0, lib, l) ==> OnPlane(p, FrontPlane(f0))
  {
    if l != [] {
      var key := l[|l| - 1];
      PcaPointsOnFrontPlane(net, f0, lib, l[..|l| - 1]);
      MovedBackOnFrontPlane(BackHit(net, f0, lib, key), f0);
    }
  }

  /** Lines 111-127: the loop over l filling intersections_front,
      intersections_back and pca_points. */
  method IntersectResiduals(net: Cablenet, f0: Frame, lib: Library, l: seq<nat>)
    returns (front: seq<Point>, back: seq<Point>, pca: seq<Point>)
    ensures |front| == |l| && |back| == |l|
    ensures forall i :: 0 <= i < |l| ==>
      front[i] == FrontHit(net, f0, lib, l[i]) && back[i] == BackHit(net, f0, lib, l[i])
    ensures pca == PcaPoints(net, f0, lib, l)
    ensures |pca| == 2 * |l|
    ensures forall i :: 0 <= i < |l| ==> pca[2 * i] == front[i] && pca[2 * i + 1] == MovedToFront(back[i], f0)
  {
    var planeFront := FrontPlane(f0);
    var planeBack := BackPlane(f0);
    front, back, pca := [], [], [];
    for i := 0 to |l|
      invariant |front| == i && |back| == i
      invariant forall j :: 0 <= j < i ==>
        front[j] == FrontHit(net, f0, lib, l[j]) && back[j] == BackHit(net, f0, lib, l[j])
      invariant pca == PcaPoints(net, f0, lib, l[..i])
    {
      var key := l[i];
      var a := net.xyz(key);
      var r := net.residual(key);
      var b := Add(a, r);
      var xFront := lib.intersectionLinePlane((a, b), planeFront);
      var xBack := lib.intersectionLinePlane((a, b), planeBack);
      var moved := Add(xBack, Scale(f0.zaxis, -THICKNESS));
      front := front + [xFront];
      back := back + [xBack];
      pca := pca + [xFront];
      pca := pca + [moved];
      assert l[..i + 1][..i] == l[..i];
    }
    assert l[..|l|] == l;
    PcaPointsAt(net, f0, lib, l);
  }

  // ----- cutting pca_points into groups -------------------------------------------

  /** The slices pca_points[start:end] the while loop takes: consecutive,
      STEP long, a shorter remainder dropped. */
  function Chunks<T>(s: seq<T>): (r: seq<seq<T>>)
    ensures |r| == |s| / STEP
    ensures forall k :: 0 <= k < |r| ==> r[k] == s[k * STEP..(k + 1) * STEP]
    decreases |s|
  {
    if |s| < STEP then [] else [s[..STEP]] + Chunks(s[STEP..])
  }

  function Concat<T>(ss: seq<seq<T>>): seq<T> {
    if ss == [] then [] else ss[0] + Concat(ss[1..])
  }

  /** The groups, in order, are exactly s without its last |s| % STEP points. */
  lemma {:induction false} ChunksCoverPrefix<T>(s: seq<T>)
    ensures Concat(Chunks(s)) == s[..|s| - |s| % STEP]
    decreases |s|
  {
    if |s| >= STEP {
      ChunksCoverPrefix(s[STEP..]);
      var r := Chunks(s);
      assert r[1..] == Chunks(s[STEP..]);
      assert (|s| - STEP) % STEP == |s| % STEP;
      assert s[..STEP] + s[STEP..][..|s| - STEP - |s| % STEP] == s[..|s| - |s| % STEP];
    }
  }

  // ----- one beam per group --------------------------------------------------------

  /** frame: the PCA frame of one group of points (lines 150-151). */
  function PcaFrame(points: seq<Point>, lib: Library): Frame {
    var fit := lib.pca(points);
    lib.makeFrame(fit.0, fit.1, fit.2)
  }

  /** front before the reversal test: the padded bounding box of the group in its
      PCA frame, mapped back to world coordinates (lines 158-170). */
  function Corners(points: seq<Point>, lib: Library): seq<Point> {
    var frame := PcaFrame(points, lib);
    var box := lib.boundingBoxXY(lib.toWorldXY(frame, points));
    lib.fromWorldXY(frame, lib.offsetPolygon(box, -PADDING))
  }

  /** front after line 182: reversed when the PCA normal and frame_0's z differ. */
  function BeamFront(points: seq<Point>, f0: Frame, lib: Library): seq<Point> {
    var corners := Corners(points, lib);
    if lib.anglesDiffer(PcaFrame(points, lib).zaxis, f0.zaxis) then Reversed(corners) else corners
  }

  /** back: every front vertex moved by THICKNESS along frame_0's z. */
  function Translated(s: seq<Point>, v: Point): seq<Point> {
    seq(|s|, i requires 0 <= i < |s| => Add(s[i], v))
  }

  /** The beam built from one group of points: front + back with the box faces. */
  function BeamOf(points: seq<Point>, f0: Frame, lib: Library): Solid {
    var front := BeamFront(points, f0, lib);
    Box(front, Translated(front, Scale(f0.zaxis, THICKNESS)))
  }

  /** With the library's sizes, a beam is a hexahedron: vertex i + 4 is vertex i
      moved by THICKNESS along frame_0's z, and the front quad holds the four
      padded box corners, in reverse order exactly when the normals differ. */
  lemma BeamLayers(points: seq<Point>, f0: Frame, lib: Library)
    requires BeamSizes(lib)
    ensures IsHex(BeamOf(points, f0, lib)) && IndicesInRange(BeamOf(points, f0, lib))
    ensures forall i :: 0 <= i < 4 ==>
      BeamOf(points, f0, lib).vertices[i + 4] == Add(BeamOf(points, f0, lib).vertices[i], Scale(f0.zaxis, THICKNESS))
    ensures multiset(BeamOf(points, f0, lib).vertices[..4]) == multiset(Corners(points, lib))
    ensures forall i :: 0 <= i < 4 ==>
      BeamOf(points, f0, lib).vertices[i] ==
        if lib.anglesDiffer(PcaFrame(points, lib).zaxis, f0.zaxis)
        then Corners(points, lib)[3 - i] else Corners(points, lib)[i]
  {
    var corners := Corners(points, lib);
    var front := BeamFront(points, f0, lib);
    var beam := BeamOf(points, f0, lib);
    assert |corners| == 4;
    BoxOfQuadsIsHex(front, Translated(front, Scale(f0.zaxis, THICKNESS)));
    assert beam.vertices[..4] == front;
    ReversedSameElements(corners);
    forall i | 0 <= i < 4 ensures front[i] == if front == corners then corners[i] else corners[3 - i] {
      if front != corners {
        ReversedAt(corners, i);
      }
    }
  }

  method ReverseInPlace<T>(a: array<T>)
    modifies a
    ensures a[..] == Reversed(old(a[..]))
  {
    var n := a.Length;
    var lo, hi := 0, n - 1;
    while lo < hi
      invariant 0 <= lo <= n && hi == n - 1 - lo
      invariant forall k :: 0 <= k < lo ==> a[k] == old(a[n - 1 - k]) && a[n - 1 - k] == old(a[k])
      invariant forall k :: lo <= k <= hi ==> a[k] == old(a[k])
    {
      a[lo], a[hi] := a[hi], a[lo];
      lo, hi := lo + 1, hi - 1;
    }
    forall k | 0 <= k < n ensures a[k] == Reversed(old(a[..]))[k] {
      ReversedAt(old(a[..]), k);
    }
  }

  /** Lines 185-187: back[i] is front[i] moved by THICKNESS along z. */
  method Extrude(front: array<Point>, zaxis: Point) returns (back: seq<Point>)
    ensures |back| == front.Length
    ensures forall i :: 0 <= i < front.Length ==> back[i] == Add(front[i], Scale(zaxis, THICKNESS))
  {
    back := [];
    for i := 0 to front.Length
      invariant |back| == i
      invariant forall j :: 0 <= j < i ==> back[j] == Add(front[j], Scale(zaxis, THICKNESS))
    {
      var vertex := Add(front[i], Scale(zaxis, THICKNESS));
      back := back + [vertex];
    }
  }

  /** Lines 150-194 for one group of points. */
  method BeamFromChunk(points: seq<Point>, f0: Frame, lib: Library) returns (beam: Solid)
    ensures beam == BeamOf(points, f0, lib)
  {
    var fit := lib.pca(points);
    var frame := lib.makeFrame(fit.0, fit.1, fit.2);
    var local := lib.toWorldXY(frame, points);
    var box := lib.boundingBoxXY(local);
    box := lib.offsetPolygon(box, -PADDING);
    box := lib.fromWorldXY(frame, box);
    var front := new Point[|box|](i requires 0 <= i < |box| => box[i]);
    assert front[..] == Corners(points, lib);
    if lib.anglesDiffer(frame.zaxis, f0.zaxis) {
      ReverseInPlace(front);
    }
    assert front[..] == BeamFront(points, f0, lib);
    var back := Extrude(front, f0.zaxis);
    assert back == Translated(front[..], Scale(f0.zaxis, THICKNESS));
    beam := Box(front[..], back);
  }

  /** Lines 139-148: the start/end loop, building one beam per full group. */
  method CutBeams(pca: seq<Point>, f0: Frame, lib: Library) returns (beams: seq<Solid>)
    ensures |beams| == |pca| / STEP
    ensures forall k :: 0 <= k < |beams| ==> beams[k] == BeamOf(pca[k * STEP..(k + 1) * STEP], f0, lib)
  {
    var step := STEP;
    var start := 0;
    var end := step;
    beams := [];
    while end <= |pca|
      invariant end == start + step
      invariant start == |beams| * step && start <= |pca|
      invariant forall k :: 0 <= k < |beams| ==> beams[k] == BeamOf(pca[k * STEP..(k + 1) * STEP], f0, lib)
      decreases |pca| - start
    {
      var points := pca[start..end];
      start := end;
      end := end + step;
      var beam := BeamFromChunk(points, f0, lib);
      beams := beams + [beam];
    }
  }

  // ----- one boundary name -----------------------------------------------------

  /** What the loop body for one name produces. */
  function ExpectedBeams(net: Cablenet, name: string, lib: Library): Outcome<seq<Solid>> {
    var l := Selection(net, name);
    if l == [] then Failure(EmptySelection(name))
    else if BoundaryXAxis(net, l) == Point(0.0, 0.0, 0.0) then Failure(ZeroXAxis(name))
    else
      var f0 := BoundaryFrame(net, l, lib);
      var groups := Chunks(PcaPoints(net, f0, lib, l));
      Success(seq(|groups|, k requires 0 <= k < |groups| => BeamOf(groups[k], f0, lib)))
  }

  /** Group k of pca_points holds the points of selected vertices 3k, 3k + 1
      and 3k + 2, in that order. */
  lemma {:induction false} GroupOfThreeVertices(net: Cablenet, f0: Frame, lib: Library, l: seq<nat>, k: nat)
    requires 3 * k + 2 < |l|
    ensures (k + 1) * STEP <= |PcaPoints(net, f0, lib, l)|
    ensures PcaPoints(net, f0, lib, l)[k * STEP..(k + 1) * STEP] ==
      HitPair(net, f0, lib, l[3 * k]) + HitPair(net, f0, lib, l[3 * k + 1]) + HitPair(net, f0, lib, l[3 * k + 2])
  {
    var pts := PcaPoints(net, f0, lib, l);
    PcaPointsAt(net, f0, lib, l);
    var group := pts[k * STEP..(k + 1) * STEP];
    var a, b, c := l[3 * k], l[3 * k + 1], l[3 * k + 2];
    assert group[0] == pts[2 * (3 * k)] && group[1] == pts[2 * (3 * k) + 1];
    assert group[2] == pts[2 * (3 * k + 1)] && group[3] == pts[2 * (3 * k + 1) + 1];
    assert group[4] == pts[2 * (3 * k + 2)] && group[5] == pts[2 * (3 * k + 2) + 1];
    assert group == HitPair(net, f0, lib, a) + HitPair(net, f0, lib, b) + HitPair(net, f0, lib, c);
  }

  /** Two points per vertex and six per group: one group per three vertices. */
  lemma GroupsPerVertices(n: nat)
    ensures (2 * n) / STEP == n / 3
  {
  }

  /** The groups of pca_points are the points of selected vertices 3k, 3k + 1
      and 3k + 2, one group per three vertices. */
  lemma BeamsOfGroups(net: Cablenet, f0: Frame, lib: Library, l: seq<nat>)
    ensures |Chunks(PcaPoints(net, f0, lib, l))| == |l| / 3
    ensures forall k :: 0 <= k < |l| / 3 ==>
      Chunks(PcaPoints(net, f0, lib, l))[k] ==
        HitPair(net, f0, lib, l[3 * k]) + HitPair(net, f0, lib, l[3 * k + 1]) + HitPair(net, f0, lib, l[3 * k + 2])
  {
    PcaPointsAt(net, f0, lib, l);
    GroupsPerVertices(|l|);
    forall k | 0 <= k < |l| / 3
      ensures Chunks(PcaPoints(net, f0, lib, l))[k] ==
        HitPair(net, f0, lib, l[3 * k]) + HitPair(net, f0, lib, l[3 * k + 1]) + HitPair(net, f0, lib, l[3 * k + 2])
    {
      GroupOfThreeVertices(net, f0, lib, l, k);
    }
  }

  /** A name completes without failure exactly when it selects some vertex and
      its first and last selected vertices are not on one vertical line. */
  lemma BeamsFailWhen(net: Cablenet, name: string, lib: Library)
    ensures ExpectedBeams(net, name, lib).Failure? <==>
      var l := Selection(net, name);
      l == [] || (net.xyz(l[0]).x == net.xyz(l[|l| - 1]).x && net.xyz(l[0]).y == net.xyz(l[|l| - 1]).y)
  {
  }

  /** A name completes without failure exactly when it selects some vertex and
      its first and last selected vertices are not on one vertical line, and
      then it yields one beam per three selected vertices; beam k is built from
      the points of the selected vertices 3k, 3k + 1 and 3k + 2. */
  lemma BeamsPerThreeVertices(net: Cablenet, name: string, lib: Library)
    ensures ExpectedBeams(net, name, lib).Failure? <==>
      var l := Selection(net, name);
      l == [] || (net.xyz(l[0]).x == net.xyz(l[|l| - 1]).x && net.xyz(l[0]).y == net.xyz(l[|l| - 1]).y)
    ensures ExpectedBeams(net, name, lib).Success? ==>
      var l := Selection(net, name);
      var beams := ExpectedBeams(net, name, lib).value;
      var f0 := BoundaryFrame(net, l, lib);
      |beams| == |l| / 3 &&
      forall k :: 0 <= k < |beams| ==>
        beams[k] == BeamOf(HitPair(net, f0, lib, l[3 * k]) + HitPair(net, f0, lib, l[3 * k + 1])
                           + HitPair(net, f0, lib, l[3 * k + 2]), f0, lib)
  {
    BeamsFailWhen(net, name, lib);
    var l := Selection(net, name);
    if l != [] && BoundaryXAxis(net, l) != Point(0.0, 0.0, 0.0) {
      BeamsOfGroups(net, BoundaryFrame(net, l, lib), lib, l);
    }
  }

  /** A name that selects a single vertex has a zero chord (l[0] and l[-1] are
      the same vertex), so it fails, whatever the library does. */
  lemma SingleVertexFails(net: Cablenet, name: string, lib: Library)
    requires |Selection(net, name)| == 1
    ensures ExpectedBeams(net, name, lib) == Failure(ZeroXAxis(name))
  {
  }

  /** Lines 62-194 for one name. */
  method BoundaryBeams(net: Cablenet, name: string, lib: Library) returns (r: Outcome<seq<Solid>>)
    ensures r == ExpectedBeams(net, name, lib)
    ensures r == Failure(EmptySelection(name)) <==> Selection(net, name) == []
    ensures r == Failure(ZeroXAxis(name)) <==>
      Selection(net, name) != [] && BoundaryXAxis(net, Selection(net, name)) == Point(0.0, 0.0, 0.0)
    ensures r.Success? ==> |r.value| == |Selection(net, name)| / 3
  {
    BeamsPerThreeVertices(net, name, lib);
    var l := VerticesWhere(net.vertices, net.constraint, name);
    var boundary := net.boundary;
    l := Select(boundary, l);
    if |l| == 0 {
      return Failure(EmptySelection(name));
    }
    var a := net.xyz(l[0]);
    var b := net.xyz(l[|l| - 1]);
    var xaxis := ChordXAxis(a, b);
    if xaxis == Point(0.0, 0.0, 0.0) {
      return Failure(ZeroXAxis(name));
    }
    var frame0 := lib.makeFrame(a, xaxis, Point(0.0, 0.0, 1.0));
    var front, back, pca := IntersectResiduals(net, frame0, lib, l);
    var beams := CutBeams(pca, frame0, lib);
    ghost var groups := Chunks(PcaPoints(net, frame0, lib, l));
    assert beams == seq(|groups|, k requires 0 <= k < |groups| => BeamOf(groups[k], frame0, lib));
    r := Success(beams);
  }

  /** Lines 60-194: every name in NAMES in turn. The first name that fails (an
      empty selection, or a zero frame axis) ends the script; the beams of the
      names before it were already built. */
  method AllBoundaries(net: Cablenet, lib: Library) returns (built: seq<seq<Solid>>, failure: Option<Error>)
    ensures |built| <= |NAMES|
    ensures failure.None? <==> |built| == |NAMES|
    ensures forall i :: 0 <= i < |built| ==> ExpectedBeams(net, NAMES[i], lib) == Success(built[i])
    ensures failure.Some? ==> ExpectedBeams(net, NAMES[|built|], lib) == Failure(failure.value)
  {
    built := [];
    for i := 0 to |NAMES|
      invariant |built| == i
      invariant forall j :: 0 <= j < i ==> ExpectedBeams(net, NAMES[j], lib) == Success(built[j])
    {
      var r := BoundaryBeams(net, NAMES[i], lib);
      if r.Failure? {
        return built, Some(r.error);
      }
      built := built + [r.value];
    }
    failure := None;
  }
}
