# Formwork blocks and boundary beams of a cable-net shell

This project models the discrete skeleton of two Rhino/COMPAS scripts.
They turn a form-found cable-net mesh into fabrication solids:

- `knitcandela/blocks.py` builds one foam formwork block per mesh face. The
  face polygon is offset inwards to make the bottom quad. Lines along the face
  normal from the bottom vertices meet a plane THICKNESS above the face
  centroid; those points, offset inwards again (the taper), make the top quad.
- `texas/boundary.py` builds beams along the SOUTH and NORTH boundaries. It
  selects the boundary vertices carrying the label, in boundary order. Each
  vertex's residual-force line is intersected with a front plane and a back
  plane, and the back point is moved onto the front plane. The points are cut
  into groups of 6 (three vertices). Each group becomes a padded bounding box
  in its PCA frame, reversed when its normal disagrees with the boundary frame,
  and is extruded by THICKNESS into a beam.

Both solids are an 8-vertex list (`lower + upper`) with one fixed table of six
quad faces.

Layout:

- `geometry.dfy` (module `Geometry`): points with exact real coordinates and
  the vector operations the scripts use. It also holds `Library`, a record of
  the COMPAS functions the scripts call. Those functions are left
  uninterpreted, and the pipelines receive them as a parameter. Lemmas that
  need a fact about the library (an offset keeps the vertex count, a
  line-plane intersection lies on the plane) ask for it as a `requires`.
- `sequences.dfy` (module `Sequences`): reversal and the subsequence relation.
- `hex_solid.dfy` (module `HexSolid`): the box, its face table and the table's
  topology.
- `boundary.dfy` (module `Boundary`): the beam pipeline.
- `blocks.dfy` (module `Blocks`): the block pipeline.

The loops of the scripts are methods with loop invariants. Most methods are
proved equal to a specification function (`PcaPoints`, `BeamOf`,
`ExpectedBeams`, `BlockOf`), and lemmas state what those functions promise.
`CutBeams` is proved to build `BeamOf` of each full slice of STEP points; those
slices are the groups `Chunks` returns.
`front.reverse()` is an in-place reversal of an array.

How the scripts behave at their edges, and how the model renders it:

- An empty selection has no error of its own: texas/boundary.py:73 reads
  `l[0]`, raises IndexError and ends the run, so later names are not
  processed. The model returns `EmptySelection` and `AllBoundaries` stops at
  that name.
- When the first and last selected vertices lie on one vertical line (in
  particular when only one vertex is selected), the x axis built at
  texas/boundary.py:76-80 is the zero vector, and `Frame(a, xaxis, yaxis)` at
  texas/boundary.py:86 divides by its length when it unitizes it. The model
  returns `ZeroXAxis` there and `AllBoundaries` stops at that name.
- Neither script checks that the two quads have four points, so `Box` accepts
  any lengths; `Blocks.BlockNeedsQuad` states when the result is a
  well-formed hexahedron.
- The padding is applied as `offset_polygon(front, -PADDING)`
  (texas/boundary.py:169), and the model passes `-PADDING` to the
  uninterpreted offset.

## Model

| member | source | states |
|---|---|---|
| `Boundary.VerticesWhere` | texas/boundary.py:62 | a vertex is in the result exactly when it is a mesh vertex whose constraint label equals the name |
| `Boundary.Select` | texas/boundary.py:64 | the selection holds exactly the boundary keys that are labelled, each as often as it occurs in the boundary, and it is a subsequence of the ordered boundary (boundary order kept) |
| `Boundary.ChordXAxis` | texas/boundary.py:76-80 | the re-orthogonalised x axis, cross(yaxis, cross(b - a, yaxis)) with yaxis = world z, is the chord b - a with its z component dropped |
| `Boundary.PcaPointsAt` | texas/boundary.py:116-127 | pca_points has 2·len(l) points; point 2i is the front intersection of l[i]; point 2i+1 is the back intersection of l[i] moved by -THICKNESS along frame_0's z |
| `Boundary.MovedBackOnFrontPlane` | texas/boundary.py:122 | a point of the back plane (OFFSET + THICKNESS) moved by -THICKNESS along z lies on the front plane (OFFSET) |
| `Boundary.PcaPointsOnFrontPlane` | texas/boundary.py:95-127 | if intersection_line_plane returns points of its plane, every point of pca_points lies on the front plane |
| `Boundary.IntersectResiduals` | texas/boundary.py:111-127 | intersections_front and intersections_back have len(l) entries in l order, each the intersection of that vertex's residual line with the front or back plane; pca_points equals `PcaPoints` and interleaves front[i] with back[i] moved to the front |
| `Boundary.Chunks` | texas/boundary.py:139-148 | there are len(s) / 6 groups, and group k is s[6k .. 6k+6] |
| `Boundary.ChunksCoverPrefix` | texas/boundary.py:139-148 | the groups, concatenated in order, are s without its last len(s) mod 6 points, which are never used |
| `Boundary.CutBeams` | texas/boundary.py:139-148 | the start/end loop yields len(pca_points) / 6 beams, and beam k is built from pca_points[6k .. 6k+6] |
| `Boundary.ReverseInPlace` | texas/boundary.py:181-182 | after the call the array holds its old contents reversed |
| `Sequences.ReversedAt` | texas/boundary.py:182 | element k of the reversed list is element len(s)-1-k of the original |
| `Sequences.ReversedSameElements` | texas/boundary.py:182 | reversal keeps the same points with the same multiplicities |
| `Boundary.Extrude` | texas/boundary.py:185-187 | back has one vertex per front vertex, and back[i] is front[i] moved by THICKNESS along frame_0's z |
| `Boundary.BeamFromChunk` | texas/boundary.py:150-194 | the beam of one group equals `BeamOf`: PCA frame, padded box, optional reversal, extrusion, `front + back` with the face table |
| `Boundary.BeamLayers` | texas/boundary.py:168-194 | if the bounding box has 4 corners and offset and transform keep the count, a beam is a hexahedron with all face indices in range; vertex i+4 is vertex i moved by THICKNESS along frame_0's z; the front quad holds the padded corners, reversed exactly when the normals differ |
| `Boundary.GroupOfThreeVertices` | texas/boundary.py:116-148 | group k of pca_points is the front and moved-back points of selected vertices 3k, 3k+1 and 3k+2, in that order |
| `Boundary.BeamsOfGroups` | texas/boundary.py:116-148 | for any selection, the start/end loop sees len(l) / 3 groups, and group k holds the front and moved-back points of vertices 3k, 3k+1 and 3k+2 |
| `Boundary.BeamsFailWhen` | texas/boundary.py:73-86 | a name fails exactly when its selection is empty (l[0] raises) or its first and last selected vertices agree in x and y (zero frame axis) |
| `Boundary.BeamsPerThreeVertices` | texas/boundary.py:60-148 | a name completes without failure exactly when its selection is non-empty and its first and last selected vertices differ in x or y, and then yields len(l) / 3 beams (none for fewer than three vertices); beam k is built from the points of selected vertices 3k, 3k+1 and 3k+2 |
| `Boundary.BoundaryBeams` | texas/boundary.py:62-194 | the loop body for one name returns the failure `EmptySelection` exactly when the selection is empty (l[0] raises IndexError), `ZeroXAxis` exactly when the selection is non-empty and the chord axis is zero (Frame cannot unitize it), and otherwise len(l) / 3 beams as `ExpectedBeams` describes |
| `Boundary.SingleVertexFails` | texas/boundary.py:73-86 | a name selecting a single vertex fails with `ZeroXAxis`: l[0] and l[-1] coincide, so the frame's x axis is zero |
| `Boundary.AllBoundaries` | texas/boundary.py:60-199 | names are processed in order; each processed name's beams are its `ExpectedBeams`; the run stops at the first failing name and reports its failure; all names complete exactly when there is no failure |
| `HexSolid.Box` | texas/boundary.py:193 | the vertex list is `lower + upper`: index i < len(lower) is lower[i], index len(lower)+j is upper[j]; the faces are the fixed table |
| `HexSolid.BoxOfQuadsIsHex` | texas/boundary.py:193-194 | a box of two 4-point quads has exactly 8 vertices, and every face index names one of them |
| `HexSolid.FaceTableShape` | texas/boundary.py:194 | six faces of four distinct indices in 0..7; the bottom face uses only indices 0..3 and the top only 4..7; each side face is [a, b, b+4, a+4], pairing vertex i with vertex i+4 |
| `HexSolid.EdgesOfFaces` | texas/boundary.py:194 | the face cycles list exactly the 24 directed edges of `BOX_EDGES` |
| `HexSolid.EachVertexOnThreeFaces` | texas/boundary.py:194 | each of the 8 vertices lies on exactly 3 faces |
| `HexSolid.FacesFormClosedBox` | knitcandela/blocks.py:83 | the face table both scripts use is closed and consistently oriented: no directed edge repeats, every edge's reverse is also an edge, so each undirected edge lies on exactly two faces in opposite directions; V - E + F = 2 |
| `Blocks.RaiseTop` | knitcandela/blocks.py:74-78 | top gets one vertex per bottom vertex: top[i] is the intersection of the line (bottom[i], bottom[i] + normal) with the plane THICKNESS above the centroid |
| `Blocks.BuildBlock` | knitcandela/blocks.py:55-85 | the block of one face equals `BlockOf`: bottom = offset(points, OFFSET), top = offset(raised bottom, TAPER), vertices `bottom + top`, the fixed face table |
| `Blocks.GenerateBlocks` | knitcandela/blocks.py:51-87 | one block per face, in face order, and block i depends on face i alone |
| `Blocks.BlockLayers` | knitcandela/blocks.py:61-82 | if the offset keeps one vertex per vertex, a block has 2·len(points) vertices: the offset bottom, left unchanged after line 61, then the tapered top |
| `Blocks.BlockNeedsQuad` | knitcandela/blocks.py:82-83 | a block is a hexahedron exactly when its face is a quad, and its face indices all name vertices exactly when the face has at least 4 vertices |
| `Blocks.RawTopOnPlane` | knitcandela/blocks.py:68-78 | a consequence of the library's promise rather than of the script's own steps: when intersection_line_plane returns points of its plane, applying that to each vertex puts the whole untapered top layer on the plane THICKNESS above the centroid |

Both scripts write the same face table literally (texas/boundary.py:194 and
knitcandela/blocks.py:83). The model defines it once, as `HexSolid.FACES`, and
both pipelines use it, so the topology lemmas hold for blocks and beams alike.

## Left out

- The COMPAS geometry is not modelled. `offset_polygon`, `intersection_line_plane`, `Frame(...)`, `transform_points` with `Transformation.from_frame_to_frame` and its inverse, `bounding_box_xy` and `angles_vectors` are uninterpreted fields of `Library`. They are floating-point library code outside this model.
- The PCA of `compas.rpc.Proxy('compas.numerical').pca_numpy` is an uninterpreted function returning an origin and two axes. It is remote numerical code.
- Floating point is not modelled. Coordinates are exact reals, so the rounding of `OFFSET + THICKNESS` and of vector sums is absent. The test `angle[0] != 0` is the uninterpreted boolean `anglesDiffer`.
- `intersection_line_plane` returns None for a line parallel to the plane. The model treats it as total, so the TypeError that None would cause later is not modelled.
- File and JSON input and output are not modelled: `Cablenet.from_json`, the temp.json round trip and `json.dump`. A cablenet is given as the `Boundary.Cablenet` record or as a sequence of `Blocks.Face`.
- `mesh_flip_cycles` (knitcandela/blocks.py:34) is not modelled; the faces are taken as already flipped. It is a library mesh operation.
- Drawing is not modelled: `MeshArtist`, `PointArtist`, `FrameArtist`, `clear_layer` and the unused `BOUNDARIES` list. `Mesh.from_vertices_and_faces` is not modelled either; a solid is the pair of its vertex list and face table.
- Cablenet queries are inputs, not computed: `vertices_on_boundary`, `vertex_coordinates`, `residual`, `face_centroid`, `face_normal`. `vertices_where` is modelled as a filter over `cablenet.vertices()`.
