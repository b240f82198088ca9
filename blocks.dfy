/** Foam formwork blocks, one per cablenet face (knitcandela/blocks.py).
    The bottom quad is the face polygon offset inwards for rib clearance; the
    top quad is found by shooting a line along the face normal from every
    bottom vertex to a plane THICKNESS above the face centroid, and is then
    offset inwards again as a taper. */
module Blocks {
  import opened Geometry
  import opened HexSolid

  const THICKNESS: real := 0.060
  const OFFSET: real := 0.020
  const TAPER: real := 0.04

  /** What the script reads of one face: the positions of its vertices
      (face_vertices, then get_vertices_attributes('xyz')), face_centroid and
      the unitized face_normal. */
  datatype Face = Face(points: seq<Point>, centroid: Point, normal: Point)

  /** The plane THICKNESS above the centroid, perpendicular to the normal. */
  function TopPlane(f: Face): Plane {
    (Add(f.centroid, Scale(f.normal, THICKNESS)), f.normal)
  }

  /** bottom: the face polygon offset by OFFSET (line 61). */
  function Bottom(f: Face, lib: Library): seq<Point> {
    lib.offsetPolygon(f.points, OFFSET)
  }

  /** The top vertex above one bottom vertex a: the line (a, a + normal) meets the top plane. */
  function Above(a: Point, f: Face, lib: Library): Point {
    lib.intersectionLinePlane((a, Add(a, f.normal)), TopPlane(f))
  }

  /** top before the taper: one vertex above each bottom vertex. */
  function RawTop(bottom: seq<Point>, f: Face, lib: Library): seq<Point> {
    seq(|bottom|, i requires 0 <= i < |bottom| => Above(bottom[i], f, lib))
  }

  /** The block of one face: bottom + tapered top, with the box faces. */
  function BlockOf(f: Face, lib: Library): Solid {
    var bottom := Bottom(f, lib);
    Box(bottom, lib.offsetPolygon(RawTop(bottom, f, lib), TAPER))
  }

  /** Lines 74-78: top gets one vertex per bottom vertex, in order. */
  method RaiseTop(bottom: seq<Point>, f: Face, lib: Library) returns (top: seq<Point>)
    ensures |top| == |bottom|
    ensures forall i :: 0 <= i < |bottom| ==>
      top[i] == lib.intersectionLinePlane((bottom[i], Add(bottom[i], f.normal)), TopPlane(f))
  {
    var plane := (Add(f.centroid, Scale(f.normal, THICKNESS)), f.normal);
    top := [];
    for i := 0 to |bottom|
      invariant |top| == i
      invariant forall j :: 0 <= j < i ==>
        top[j] == lib.intersectionLinePlane((bottom[j], Add(bottom[j], f.normal)), TopPlane(f))
    {
      var a := bottom[i];
      var b := Add(a, f.normal);
      var vertex := lib.intersectionLinePlane((a, b), plane);
      top := top + [vertex];
    }
  }

  /** Lines 55-85 for one face. */
  method BuildBlock(f: Face, lib: Library) returns (block: Solid)
    ensures block == BlockOf(f, lib)
  {
    var bottom := lib.offsetPolygon(f.points, OFFSET);
    var top := RaiseTop(bottom, f, lib);
    assert top == RawTop(bottom, f, lib);
    top := lib.offsetPolygon(top, TAPER);
    block := Box(bottom, top);
  }

  /** Lines 51-87: one block per face, appended in face order; block i depends
      on face i alone. */
  method GenerateBlocks(faces: seq<Face>, lib: Library) returns (blocks: seq<Solid>)
    ensures |blocks| == |faces|
    ensures forall i :: 0 <= i < |faces| ==> blocks[i] == BlockOf(faces[i], lib)
  {
    blocks := [];
    for i := 0 to |faces|
      invariant |blocks| == i
      invariant forall j :: 0 <= j < i ==> blocks[j] == BlockOf(faces[j], lib)
    {
      var block := BuildBlock(faces[i], lib);
      blocks := blocks + [block];
    }
  }

  /** With an offset that keeps one vertex per vertex, a block has twice as many
      vertices as its face: the offset face first, then the tapered top, vertex
      i of the bottom under vertex i of the top. */
  lemma BlockLayers(f: Face, lib: Library)
    requires OffsetKeepsSize(lib)
    ensures var block := BlockOf(f, lib);
      |block.vertices| == 2 * |f.points| &&
      block.vertices[..|f.points|] == Bottom(f, lib) &&
      block.vertices[|f.points|..] == lib.offsetPolygon(RawTop(Bottom(f, lib), f, lib), TAPER)
  {
    var block := BlockOf(f, lib);
    var bottom := Bottom(f, lib);
    var top := lib.offsetPolygon(RawTop(bottom, f, lib), TAPER);
    assert block.vertices == bottom + top;
  }

  /** The face table is written for 8 vertices: a block is a hexahedron exactly
      for a quad face, and its face indices all name vertices exactly when the
      face has at least 4 vertices (a triangle leaves indices 6 and 7 dangling). */
  lemma BlockNeedsQuad(f: Face, lib: Library)
    requires OffsetKeepsSize(lib)
    ensures IsHex(BlockOf(f, lib)) <==> |f.points| == 4
    ensures IndicesInRange(BlockOf(f, lib)) <==> |f.points| >= 4
  {
    BlockLayers(f, lib);
    FaceTableShape();
    var block := BlockOf(f, lib);
    if |f.points| < 4 {
      assert block.faces[1][3] == 7;
    }
  }

  /** Every untapered top vertex lies on the top plane. */
  lemma RawTopOnPlane(f: Face, lib: Library)
    requires IntersectionOnPlane(lib)
    ensures forall p :: p in RawTop(Bottom(f, lib), f, lib) ==> OnPlane(p, TopPlane(f))
  {
    var raw := RawTop(Bottom(f, lib), f, lib);
    forall p | p in raw ensures OnPlane(p, TopPlane(f)) {
      var i :| 0 <= i < |raw| && raw[i] == p;
    }
  }
}
