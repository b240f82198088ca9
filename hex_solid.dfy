/** The eight-vertex box both scripts build: a vertex list made of a lower
    quad followed by an upper quad, and one fixed table of six quad faces. */
module HexSolid {
  import opened Geometry

  /** A mesh record: vertex positions and faces as vertex-index cycles. */
  datatype Solid = Solid(vertices: seq<Point>, faces: seq<seq<nat>>)

  /** The face table of both scripts: bottom, top, then the four sides. */
  const FACES: seq<seq<nat>> :=
    [[0, 3, 2, 1], [4, 5, 6, 7], [3, 0, 4, 7], [2, 3, 7, 6], [1, 2, 6, 5], [0, 1, 5, 4]]

  /** `lower + upper` with the fixed face table. */
  function Box(lower: seq<Point>, upper: seq<Point>): (s: Solid)
    ensures |s.vertices| == |lower| + |upper| && s.faces == FACES
    ensures forall i :: 0 <= i < |lower| ==> s.vertices[i] == lower[i]
    ensures forall j :: 0 <= j < |upper| ==> s.vertices[|lower| + j] == upper[j]
  {
    Solid(lower + upper, FACES)
  }

  /** Every face index names a vertex of the solid. */
  ghost predicate IndicesInRange(s: Solid) {
    forall f, i :: 0 <= f < |s.faces| && 0 <= i < |s.faces[f]| ==> s.faces[f][i] < |s.vertices|
  }

  /** Exactly the 8 vertices the face table is written for. */
  ghost predicate IsHex(s: Solid) {
    |s.vertices| == 8 && s.faces == FACES
  }

  /** A box whose two quads have four points each is a hexahedron whose face
      indices all name existing vertices. */
  lemma BoxOfQuadsIsHex(lower: seq<Point>, upper: seq<Point>)
    requires |lower| == 4 && |upper| == 4
    ensures IsHex(Box(lower, upper)) && IndicesInRange(Box(lower, upper))
  {
    FaceTableShape();
  }

  // ----- shape of the face table -------------------------------------------------

  /** No index occurs twice in f. */
  predicate Distinct(f: seq<nat>) {
    forall i, j :: 0 <= i < j < |f| ==> f[i] != f[j]
  }

  /** Six quads, each with four distinct indices in 0..7; the bottom face uses
      only lower indices, the top face only upper ones, and each side face is
      [a, b, b + 4, a + 4]: it joins the lower edge (a, b) to its copy on top. */
  lemma FaceTableShape()
    ensures |FACES| == 6
    ensures forall f :: 0 <= f < 6 ==> |FACES[f]| == 4 && Distinct(FACES[f])
    ensures forall f, i :: 0 <= f < 6 && 0 <= i < 4 ==> FACES[f][i] < 8
    ensures forall i :: 0 <= i < 4 ==> FACES[0][i] < 4 && FACES[1][i] >= 4
    ensures forall f :: 2 <= f < 6 ==>
      FACES[f][0] < 4 && FACES[f][1] < 4 && FACES[f][2] == FACES[f][1] + 4 && FACES[f][3] == FACES[f][0] + 4
  {
  }

  // ----- topology of the face table -------------------------------------------------

  /** The directed edges of one face cycle, in order, closing back to the start. */
  function Cycle(f: seq<nat>): (e: seq<(nat, nat)>)
    ensures |e| == |f|
    ensures forall j :: 0 <= j < |f| ==> e[j] == (f[j], f[(j + 1) % |f|])
  {
    seq(|f|, j requires 0 <= j < |f| => (f[j], f[(j + 1) % |f|]))
  }

  /** All directed edges of a face table, face by face. */
  function Edges(faces: seq<seq<nat>>): (e: seq<(nat, nat)>)
  {
    if faces == [] then [] else Cycle(faces[0]) + Edges(faces[1..])
  }

  /** Number of faces that use vertex v. */
  function Degree(v: nat, faces: seq<seq<nat>>): nat {
    if faces == [] then 0 else (if v in faces[0] then 1 else 0) + Degree(v, faces[1..])
  }

  /** A closed, consistently oriented surface: every directed edge occurs once,
      and its reverse occurs too. So each undirected edge is shared by exactly
      two face sides that run it in opposite directions. */
  ghost predicate ClosedAndOriented(faces: seq<seq<nat>>) {
    var e := Edges(faces);
    (forall i, j :: 0 <= i < j < |e| ==> e[i] != e[j]) &&
    (forall i :: 0 <= i < |e| ==> e[i].0 != e[i].1 && (e[i].1, e[i].0) in e)
  }

  /** The 24 directed edges of the face table, face by face. */
  const BOX_EDGES: seq<(nat, nat)> := [(0, 3), (3, 2), (2, 1), (1, 0),
                                      (4, 5), (5, 6), (6, 7), (7, 4),
                                      (3, 0), (0, 4), (4, 7), (7, 3),
                                      (2, 3), (3, 7), (7, 6), (6, 2),
                                      (1, 2), (2, 6), (6, 5), (5, 1),
                                      (0, 1), (1, 5), (5, 4), (4, 0)]

  lemma EdgesOfFaces()
    ensures Edges(FACES) == BOX_EDGES
  {
    var f := FACES;
    assert Cycle(f[0]) == [(0, 3), (3, 2), (2, 1), (1, 0)];
    assert Cycle(f[1]) == [(4, 5), (5, 6), (6, 7), (7, 4)];
    assert Cycle(f[2]) == [(3, 0), (0, 4), (4, 7), (7, 3)];
    assert Cycle(f[3]) == [(2, 3), (3, 7), (7, 6), (6, 2)];
    assert Cycle(f[4]) == [(1, 2), (2, 6), (6, 5), (5, 1)];
    assert Cycle(f[5]) == [(0, 1), (1, 5), (5, 4), (4, 0)];
    assert Edges(f[5..]) == Cycle(f[5]) + Edges([]);
    assert Edges(f[4..]) == Cycle(f[4]) + Edges(f[5..]);
    assert Edges(f[3..]) == Cycle(f[3]) + Edges(f[4..]);
    assert Edges(f[2..]) == Cycle(f[2]) + Edges(f[3..]);
    assert Edges(f[1..]) == Cycle(f[1]) + Edges(f[2..]);
  }

  /** Position of a directed edge in BOX_EDGES, -1 when it is not there. */
  function EdgeSlot(e: (nat, nat)): int {
    match e
    case (0, 3) => 0
    case (3, 2) => 1
    case (2, 1) => 2
    case (1, 0) => 3
    case (4, 5) => 4
    case (5, 6) => 5
    case (6, 7) => 6
    case (7, 4) => 7
    case (3, 0) => 8
    case (0, 4) => 9
    case (4, 7) => 10
    case (7, 3) => 11
    case (2, 3) => 12
    case (3, 7) => 13
    case (7, 6) => 14
    case (6, 2) => 15
    case (1, 2) => 16
    case (2, 6) => 17
    case (6, 5) => 18
    case (5, 1) => 19
    case (0, 1) => 20
    case (1, 5) => 21
    case (5, 4) => 22
    case (4, 0) => 23
    case _ => -1
  }

  /** EdgeSlot inverts BOX_EDGES, and the reverse of every box edge is a box edge. */
  lemma BoxEdgeSlots()
    ensures forall i :: 0 <= i < |BOX_EDGES| ==>
      EdgeSlot(BOX_EDGES[i]) == i &&
      0 <= EdgeSlot((BOX_EDGES[i].1, BOX_EDGES[i].0)) < |BOX_EDGES| &&
      BOX_EDGES[EdgeSlot((BOX_EDGES[i].1, BOX_EDGES[i].0))] == (BOX_EDGES[i].1, BOX_EDGES[i].0)
  {
    forall i | 0 <= i < |BOX_EDGES|
      ensures EdgeSlot(BOX_EDGES[i]) == i
      ensures 0 <= EdgeSlot((BOX_EDGES[i].1, BOX_EDGES[i].0)) < |BOX_EDGES|
      ensures BOX_EDGES[EdgeSlot((BOX_EDGES[i].1, BOX_EDGES[i].0))] == (BOX_EDGES[i].1, BOX_EDGES[i].0)
    {
      assert i == 0 || i == 1 || i == 2 || i == 3 || i == 4 || i == 5 || i == 6 || i == 7 || i == 8 || i == 9 || i == 10 || i == 11 || i == 12 || i == 13 || i == 14 || i == 15 || i == 16 || i == 17 || i == 18 || i == 19 || i == 20 || i == 21 || i == 22 || i == 23;
    }
  }

  /** Every vertex of the box lies on exactly three faces. */
  lemma EachVertexOnThreeFaces()
    ensures forall v :: 0 <= v < 8 ==> Degree(v, FACES) == 3
  {
    forall v | 0 <= v < 8 ensures Degree(v, FACES) == 3 {
      var f := FACES;
      assert Degree(v, f[6..]) == 0;
      assert Degree(v, f[5..]) == (if v in f[5] then 1 else 0);
      assert Degree(v, f[4..]) == (if v in f[4] then 1 else 0) + Degree(v, f[5..]);
      assert Degree(v, f[3..]) == (if v in f[3] then 1 else 0) + Degree(v, f[4..]);
      assert Degree(v, f[2..]) == (if v in f[2] then 1 else 0) + Degree(v, f[3..]);
      assert Degree(v, f[1..]) == (if v in f[1] then 1 else 0) + Degree(v, f[2..]);
    }
  }

  /** The box of both scripts is closed and consistently oriented: 24 directed
      edges pair up into 12 undirected edges, every vertex lies on 3 faces, and
      V - E + F = 8 - 12 + 6 = 2. */
  lemma FacesFormClosedBox()
    ensures ClosedAndOriented(FACES)
    ensures |Edges(FACES)| == 24
    ensures forall v :: 0 <= v < 8 ==> Degree(v, FACES) == 3
    ensures 8 - |Edges(FACES)| / 2 + |FACES| == 2
  {
    EdgesOfFaces();
    EachVertexOnThreeFaces();
    BoxEdgeSlots();
  }
}
