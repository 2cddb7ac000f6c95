/**
 * The per-block mesh builders: every block type becomes a triangle list of
 * positions, UVs, normals and indices, in the block's own frame (the block
 * starts at the origin and runs along +Z).
 *
 * The builders that fill their buffers in a loop are methods proved equal to
 * a specification function assembled with `Concat` from equally long blocks:
 * one ring of four vertices per turn step, one row of vertices per bumpy
 * grid row, one run of six indices per grid cell.  What the meshes satisfy
 * is proved about those functions.
 */
module TrackMesh {
  import opened Maths
  import opened Sequences
  import opened TrackGen

  /** The width of the road. */
  const TRACK_WIDTH: real := 10.0

  /** Turn steps per radian of turn angle. */
  const SEGMENTS_PER_RADIAN: nat := 10

  /** How far the wall-top vertices sit above the floor. */
  const WALL_HEIGHT: real := 3.0

  /** The resolution the dispatcher gives every bumpy block, along both axes. */
  const BUMPY_RESOLUTION: nat := 20

  const UP: Vec3 := Vec3(0.0, 1.0, 0.0)
  const POSITIVE_X: Vec3 := Vec3(1.0, 0.0, 0.0)
  const NEGATIVE_X: Vec3 := Vec3(-1.0, 0.0, 0.0)

  /** A number of turn steps: never zero. */
  type Steps = k: nat | k >= 1 witness 1

  /** A grid resolution: at least two vertices along an axis. */
  type Resolution = n: nat | n >= 2 witness 2

  /** A triangle-list mesh; `indices` holds three vertex numbers per triangle. */
  datatype Mesh = Mesh(positions: seq<Vec3>, uvs: seq<Vec2>, normals: seq<Vec3>, indices: seq<nat>)

  /** Whole triangles only, every index names a vertex, one UV per vertex. */
  predicate IsTriangleList(mesh: Mesh)
  {
    && |mesh.indices| % 3 == 0
    && AllBelow(mesh.indices, |mesh.positions|)
    && |mesh.uvs| == |mesh.positions|
  }

  // ---------------------------------------------------------------------
  // Straight and sloped blocks
  // ---------------------------------------------------------------------

  /** A straight block: a floor quad (vertices 0 to 3) and a wall-top vertex
      above each floor corner (vertices 4 to 7). */
  function StraightMesh(length: real): (mesh: Mesh)
    ensures IsTriangleList(mesh)
    ensures |mesh.positions| == |mesh.normals| == 8 && |mesh.indices| == 18
    ensures forall j :: 0 <= j < 4 ==>
              && mesh.positions[j].y == 0.0
              && Abs(mesh.positions[j].x) == TRACK_WIDTH / 2.0
              && (mesh.positions[j].z == 0.0 || mesh.positions[j].z == length)
    ensures forall j :: 4 <= j < 8 ==>
              mesh.positions[j] == Vec3(mesh.positions[j - 4].x, WALL_HEIGHT, mesh.positions[j - 4].z)
  {
    var halfWidth := TRACK_WIDTH / 2.0;
    var vertices := [
      Vec3(-halfWidth, 0.0, 0.0), Vec3(halfWidth, 0.0, 0.0), Vec3(halfWidth, 0.0, length), Vec3(-halfWidth, 0.0, length),
      Vec3(-halfWidth, 3.0, 0.0), Vec3(halfWidth, 3.0, 0.0), Vec3(halfWidth, 3.0, length), Vec3(-halfWidth, 3.0, length)];
    var indices := [0, 2, 1, 0, 3, 2] + [0, 4, 7, 0, 7, 3, 1, 6, 5, 1, 2, 6];
    var uvs := [
      Vec2(0.0, 0.0), Vec2(1.0, 0.0), Vec2(1.0, 1.0), Vec2(0.0, 1.0),
      Vec2(0.0, 0.0), Vec2(1.0, 0.0), Vec2(1.0, 1.0), Vec2(0.0, 1.0)];
    var normals := [UP, UP, UP, UP, POSITIVE_X, POSITIVE_X, NEGATIVE_X, NEGATIVE_X];
    Mesh(vertices, uvs, normals, indices)
  }

  /** The slope's floor normal direction as the code computes it before
      normalising: it tilts about the Z axis, although the slope climbs
      along Z. */
  function SlopeNormalAsWritten(length: real, heightChange: real): Vec3
  {
    Vec3(-heightChange, length, 0.0)
  }

  /** A floor normal direction for a floor that climbs `heightChange` over
      `length` along +Z. */
  function SlopeNormal(length: real, heightChange: real): (n: Vec3)
    ensures Dot(n, Vec3(0.0, heightChange, length)) == 0.0
    ensures Dot(n, POSITIVE_X) == 0.0
    ensures length > 0.0 ==> n.y > 0.0
  {
    Vec3(0.0, length, -heightChange)
  }

  /** The written normal is perpendicular to the slope's floor exactly when
      the slope is flat or has no length. */
  lemma SlopeNormalAsWrittenIsTilted(length: real, heightChange: real)
    ensures Dot(SlopeNormalAsWritten(length, heightChange), Vec3(0.0, heightChange, length)) == length * heightChange
    ensures (Dot(SlopeNormalAsWritten(length, heightChange), Vec3(0.0, heightChange, length)) == 0.0)
              <==> (length == 0.0 || heightChange == 0.0)
  {
  }

  /** A straight block whose far end (vertices 2, 3, 6, 7) is raised by
      `heightChange`. */
  function SlopeMesh(length: real, heightChange: real): (mesh: Mesh)
    ensures IsTriangleList(mesh)
    ensures |mesh.positions| == |mesh.normals| == 8 && |mesh.indices| == 18
    ensures forall j :: 0 <= j < 4 ==> mesh.normals[j] == SlopeNormalAsWritten(length, heightChange)
  {
    var halfWidth := TRACK_WIDTH / 2.0;
    var vertices := [
      Vec3(-halfWidth, 0.0, 0.0), Vec3(halfWidth, 0.0, 0.0),
      Vec3(halfWidth, heightChange, length), Vec3(-halfWidth, heightChange, length),
      Vec3(-halfWidth, 3.0, 0.0), Vec3(halfWidth, 3.0, 0.0),
      Vec3(halfWidth, heightChange + 3.0, length), Vec3(-halfWidth, heightChange + 3.0, length)];
    var indices := [0, 2, 1, 0, 3, 2, 0, 4, 7, 0, 7, 3, 1, 6, 5, 1, 2, 6];
    var uvs := [
      Vec2(0.0, 0.0), Vec2(1.0, 0.0), Vec2(1.0, 1.0), Vec2(0.0, 1.0),
      Vec2(0.0, 0.0), Vec2(1.0, 0.0), Vec2(1.0, 1.0), Vec2(0.0, 1.0)];
    var normal := SlopeNormalAsWritten(length, heightChange);
    var normals := [normal, normal, normal, normal, POSITIVE_X, POSITIVE_X, NEGATIVE_X, NEGATIVE_X];
    Mesh(vertices, uvs, normals, indices)
  }

  /** The slope mesh with the corrected floor normal: everything else is the
      mesh the code builds, and the four floor normals are perpendicular to
      the floor along and across the slope. */
  function CorrectedSlopeMesh(length: real, heightChange: real): (mesh: Mesh)
    ensures var built := SlopeMesh(length, heightChange);
      && mesh.positions == built.positions && mesh.uvs == built.uvs && mesh.indices == built.indices
      && |mesh.normals| == 8 && mesh.normals[4..] == built.normals[4..]
    ensures IsTriangleList(mesh)
    ensures forall j :: 0 <= j < 4 ==>
              && Dot(mesh.normals[j], Vec3(0.0, heightChange, length)) == 0.0
              && Dot(mesh.normals[j], POSITIVE_X) == 0.0
  {
    var built := SlopeMesh(length, heightChange);
    var normal := SlopeNormal(length, heightChange);
    built.(normals := [normal, normal, normal, normal] + built.normals[4..])
  }

  /** A slope is the straight block of the same length with its far end
      raised by the height change: same triangles, same UVs, same wall
      normals; a flat slope has the straight block's vertices. */
  lemma SlopeRaisesStraight(length: real, heightChange: real)
    ensures SlopeMesh(length, heightChange).indices == StraightMesh(length).indices
    ensures SlopeMesh(length, heightChange).uvs == StraightMesh(length).uvs
    ensures SlopeMesh(length, heightChange).normals[4..] == StraightMesh(length).normals[4..]
    ensures forall j :: 0 <= j < 8 ==>
              var p := StraightMesh(length).positions[j];
              SlopeMesh(length, heightChange).positions[j] == Vec3(p.x, p.y + (if j % 4 < 2 then 0.0 else heightChange), p.z)
    ensures heightChange == 0.0 ==> SlopeMesh(length, heightChange).positions == StraightMesh(length).positions
  {
    var slope, straight := SlopeMesh(length, heightChange), StraightMesh(length);
    assert slope.normals[4..] == straight.normals[4..];
    if heightChange == 0.0 {
      forall j | 0 <= j < 8 ensures slope.positions[j] == straight.positions[j] {
      }
    }
  }

  // ---------------------------------------------------------------------
  // The bank profile
  // ---------------------------------------------------------------------

  /** `2 / (1 + exp(5 x^2))`: a bump that peaks at `x == 0`. */
  function ZeroPeak(libm: Libm, x: real): (r: real)
    ensures 0.0 < r < 2.0
    ensures libm.exp(x * x * 5.0) >= 1.0 ==> r <= 1.0
    ensures x == 0.0 && libm.exp(0.0) == 1.0 ==> r == 1.0
  {
    var exponentTerm := x * x * 5.0;
    var expValue := libm.exp(exponentTerm);
    var denominator := 1.0 + expValue;
    var fraction := 1.0 / denominator;
    fraction * 2.0
  }

  /** The bank profile along a turn of `max` steps: zero at both ends, the
      zero peak of the position scaled to -1..1 in between.  With no steps
      at all the code divides by zero; IEEE arithmetic then yields zero,
      which the model states directly. */
  function SigmoidPeak(libm: Libm, i: nat, max: nat): (r: real)
    ensures i == 0 || i == max ==> r == 0.0
    ensures 0.0 <= r < 2.0
  {
    if i == 0 then
      0.0
    else if i == max then
      0.0
    else if max == 0 then
      0.0
    else
      var maxReal := max as real;
      var halfMax := maxReal / 2.0;
      var iReal := i as real;
      ZeroPeak(libm, (iReal - halfMax) / halfMax)
  }

  /** `exp` is at least one on non-negative arguments. */
  ghost predicate ExpAtLeastOne(libm: Libm)
  {
    forall t :: t >= 0.0 ==> libm.exp(t) >= 1.0
  }

  /** The bank never lifts a vertex by more than the bank height. */
  lemma BankOffsetBounded(libm: Libm, i: nat, max: nat, bankHeight: real)
    requires ExpAtLeastOne(libm)
    ensures 0.0 <= SigmoidPeak(libm, i, max) <= 1.0
    ensures Abs(SigmoidPeak(libm, i, max) * bankHeight) <= Abs(bankHeight)
  {
    var s := SigmoidPeak(libm, i, max);
    if i != 0 && i != max && max != 0 {
      var x := (i as real - max as real / 2.0) / (max as real / 2.0);
      assert x * x * 5.0 >= 0.0;
      assert libm.exp(x * x * 5.0) >= 1.0;
    }
    assert 0.0 <= s <= 1.0;
    if bankHeight >= 0.0 {
      assert s * bankHeight <= bankHeight;
    } else {
      assert s * bankHeight >= bankHeight;
    }
  }

  // ---------------------------------------------------------------------
  // Turns
  // ---------------------------------------------------------------------

  /** `max(1, ceil(|angle| * SEGMENTS_PER_RADIAN))`: the fewest steps of at
      most a tenth of a radian each, and at least one. */
  function TurnSteps(angle: real): (k: Steps)
    ensures k as real >= Abs(angle) * SEGMENTS_PER_RADIAN as real
    ensures k == 1 || (k - 1) as real < Abs(angle) * SEGMENTS_PER_RADIAN as real
  {
    var segments := Ceil(Abs(angle) * SEGMENTS_PER_RADIAN as real);
    if segments < 1 then 1 else segments
  }

  /** The part of the turn angle reached at ring `i` of `k`. */
  function RingAngle(angle: real, k: Steps, i: nat): real
  {
    i as real / k as real * angle
  }

  /** The inner edge of the road at ring `i`, in the XZ plane. */
  function InnerEdge(libm: Libm, angle: real, radius: real, k: Steps, i: nat): Vec2
  {
    RotatePointAround(libm, Vec2(-TRACK_WIDTH / 2.0, 0.0), Vec2(radius, 0.0), -RingAngle(angle, k, i))
  }

  /** The outer edge of the road at ring `i`, in the XZ plane. */
  function OuterEdge(libm: Libm, angle: real, radius: real, k: Steps, i: nat): Vec2
  {
    RotatePointAround(libm, Vec2(TRACK_WIDTH / 2.0, 0.0), Vec2(radius, 0.0), -RingAngle(angle, k, i))
  }

  /** Ring `i` of a flat turn: inner floor, inner wall top, outer floor,
      outer wall top. */
  function TurnRing(libm: Libm, angle: real, radius: real, k: Steps, i: nat): seq<Vec3>
  {
    var inner := InnerEdge(libm, angle, radius, k, i);
    var outer := OuterEdge(libm, angle, radius, k, i);
    [Vec3(inner.x, 0.0, inner.y), Vec3(inner.x, 3.0, inner.y), Vec3(outer.x, 0.0, outer.y), Vec3(outer.x, 3.0, outer.y)]
  }

  /** Ring `i` of a banked turn: the inner vertices are lifted by the bank
      profile times the bank height. */
  function BankedRing(libm: Libm, angle: real, radius: real, bankHeight: real, k: Steps, i: nat): seq<Vec3>
  {
    var inner := InnerEdge(libm, angle, radius, k, i);
    var outer := OuterEdge(libm, angle, radius, k, i);
    var bankOffset := SigmoidPeak(libm, i, k) * bankHeight;
    [Vec3(inner.x, 0.0 + bankOffset, inner.y), Vec3(inner.x, 3.0 + bankOffset, inner.y),
     Vec3(outer.x, 0.0, outer.y), Vec3(outer.x, 3.0, outer.y)]
  }

  /** The texture coordinates of ring `i`: `u` runs along the turn. */
  function RingUvs(k: Steps, i: nat): seq<Vec2>
  {
    var u := i as real / k as real;
    [Vec2(u, 0.0), Vec2(u, 0.0), Vec2(u, 1.0), Vec2(u, 1.0)]
  }

  /** The normals of every ring. */
  function RingNormals(i: nat): seq<Vec3>
  {
    [UP, POSITIVE_X, UP, NEGATIVE_X]
  }

  /** The six triangles joining ring `i` to ring `i + 1`: floor, inner wall,
      outer wall. */
  function QuadIndices(i: nat): (r: seq<nat>)
    ensures |r| == 18
    ensures AllBelow(r, 4 * i + 8)
  {
    var baseIndex := i * 4;
    [baseIndex + 0, baseIndex + 4, baseIndex + 2,
     baseIndex + 2, baseIndex + 4, baseIndex + 6,
     baseIndex + 0, baseIndex + 1, baseIndex + 4,
     baseIndex + 1, baseIndex + 5, baseIndex + 4,
     baseIndex + 2, baseIndex + 6, baseIndex + 3,
     baseIndex + 3, baseIndex + 6, baseIndex + 7]
  }

  function TurnRings(libm: Libm, angle: real, radius: real, k: Steps): nat -> seq<Vec3>
  {
    (i: nat) => TurnRing(libm, angle, radius, k, i)
  }

  function RingUvsOf(k: Steps): nat -> seq<Vec2>
  {
    (i: nat) => RingUvs(k, i)
  }

  function BankedRings(libm: Libm, angle: real, radius: real, bankHeight: real, k: Steps): nat -> seq<Vec3>
  {
    (i: nat) => BankedRing(libm, angle, radius, bankHeight, k, i)
  }

  /** The vertices of the first `n` rings of a flat turn of `k` steps. */
  function TurnVertices(libm: Libm, angle: real, radius: real, k: Steps, n: nat): seq<Vec3>
  {
    Concat(TurnRings(libm, angle, radius, k), n)
  }

  /** The vertices of the first `n` rings of a banked turn of `k` steps. */
  function BankedVertices(libm: Libm, angle: real, radius: real, bankHeight: real, k: Steps, n: nat): seq<Vec3>
  {
    Concat(BankedRings(libm, angle, radius, bankHeight, k), n)
  }

  /** The UVs of the first `n` rings. */
  function TurnUvs(k: Steps, n: nat): seq<Vec2>
  {
    Concat(RingUvsOf(k), n)
  }

  /** The normals of the first `n` rings. */
  function TurnNormals(n: nat): seq<Vec3>
  {
    Concat(RingNormals, n)
  }

  /** The indices of the quads joining the first `n + 1` rings. */
  function TurnIndices(n: nat): seq<nat>
  {
    Concat(QuadIndices, n)
  }

  /** The flat turn: `TurnSteps(angle) + 1` rings and a quad between each
      pair of neighbouring rings. */
  function TurnMesh(libm: Libm, angle: real, radius: real): Mesh
  {
    var k := TurnSteps(angle);
    Mesh(TurnVertices(libm, angle, radius, k, k + 1), TurnUvs(k, k + 1), TurnNormals(k + 1), TurnIndices(k))
  }

  /** The banked turn: the flat turn's layout over banked rings. */
  function BankedTurnMesh(libm: Libm, angle: real, radius: real, bankHeight: real): Mesh
  {
    var k := TurnSteps(angle);
    Mesh(BankedVertices(libm, angle, radius, bankHeight, k, k + 1), TurnUvs(k, k + 1), TurnNormals(k + 1), TurnIndices(k))
  }

  /** Builds the flat turn ring by ring. */
  method GenerateTurnMesh(libm: Libm, angle: real, radius: real) returns (mesh: Mesh)
    ensures mesh == TurnMesh(libm, angle, radius)
  {
    var segments := TurnSteps(angle);
    var vertices: seq<Vec3> := [];
    var uvs: seq<Vec2> := [];
    var normals: seq<Vec3> := [];
    var indices: seq<nat> := [];
    for i := 0 to segments + 1
      invariant vertices == TurnVertices(libm, angle, radius, segments, i)
      invariant uvs == TurnUvs(segments, i)
      invariant normals == TurnNormals(i)
      invariant i <= segments ==> indices == TurnIndices(i)
      invariant i == segments + 1 ==> indices == TurnIndices(segments)
    {
      vertices := vertices + TurnRing(libm, angle, radius, segments, i);
      uvs := uvs + RingUvs(segments, i);
      normals := normals + RingNormals(i);
      if i < segments {
        indices := indices + QuadIndices(i);
      }
    }
    mesh := Mesh(vertices, uvs, normals, indices);
  }

  /** Builds the banked turn ring by ring. */
  method GenerateBankedTurnMesh(libm: Libm, angle: real, radius: real, bankHeight: real) returns (mesh: Mesh)
    ensures mesh == BankedTurnMesh(libm, angle, radius, bankHeight)
  {
    var segments := TurnSteps(angle);
    var vertices: seq<Vec3> := [];
    var uvs: seq<Vec2> := [];
    var normals: seq<Vec3> := [];
    var indices: seq<nat> := [];
    for i := 0 to segments + 1
      invariant vertices == BankedVertices(libm, angle, radius, bankHeight, segments, i)
      invariant uvs == TurnUvs(segments, i)
      invariant normals == TurnNormals(i)
      invariant i <= segments ==> indices == TurnIndices(i)
      invariant i == segments + 1 ==> indices == TurnIndices(segments)
    {
      vertices := vertices + BankedRing(libm, angle, radius, bankHeight, segments, i);
      uvs := uvs + RingUvs(segments, i);
      normals := normals + RingNormals(i);
      if i < segments {
        indices := indices + QuadIndices(i);
      }
    }
    mesh := Mesh(vertices, uvs, normals, indices);
  }

  /** `n` rings hold `4n` vertices, UVs and normals. */
  lemma TurnBufferLengths(libm: Libm, angle: real, radius: real, k: Steps, n: nat)
    ensures |TurnVertices(libm, angle, radius, k, n)| == |TurnUvs(k, n)| == |TurnNormals(n)| == 4 * n
  {
    ConcatLength(TurnRings(libm, angle, radius, k), n, 4);
    ConcatLength(RingUvsOf(k), n, 4);
    ConcatLength(RingNormals, n, 4);
  }

  /** `n` quads hold `18n` indices, each naming one of the `4(n + 1)`
      vertices of the rings they join. */
  lemma TurnIndicesInRange(n: nat)
    ensures |TurnIndices(n)| == 18 * n
    ensures AllBelow(TurnIndices(n), 4 * n + 4)
  {
    ConcatLength(QuadIndices, n, 18);
    forall i | 0 <= i < n ensures AllBelow(QuadIndices(i), 4 * n + 4) {
      assert 4 * i + 8 <= 4 * n + 4;
    }
    ConcatBelow(QuadIndices, n, 4 * n + 4);
  }

  /** `4(K + 1)` vertices, UVs and normals and `18K` indices, each at most
      `4K + 3`, where `K` is the number of steps. */
  lemma TurnMeshShape(libm: Libm, angle: real, radius: real)
    ensures var k, mesh := TurnSteps(angle), TurnMesh(libm, angle, radius);
      && |mesh.positions| == |mesh.uvs| == |mesh.normals| == 4 * (k + 1)
      && |mesh.indices| == 18 * k
      && AllBelow(mesh.indices, 4 * k + 4)
      && IsTriangleList(mesh)
  {
    TurnLayoutShape(libm, angle, radius, TurnSteps(angle));
  }

  /** The shape of a turn of `k` steps. */
  lemma TurnLayoutShape(libm: Libm, angle: real, radius: real, k: Steps)
    ensures var mesh := Mesh(TurnVertices(libm, angle, radius, k, k + 1), TurnUvs(k, k + 1), TurnNormals(k + 1), TurnIndices(k));
      && |mesh.positions| == |mesh.uvs| == |mesh.normals| == 4 * (k + 1)
      && |mesh.indices| == 18 * k
      && AllBelow(mesh.indices, 4 * k + 4)
      && IsTriangleList(mesh)
  {
    TurnBufferLengths(libm, angle, radius, k, k + 1);
    TurnIndicesInRange(k);
    assert 18 * k == 3 * (6 * k);
    MultipleMod(6 * k, 3);
  }

  /** A banked ring is the flat ring with its two inner vertices lifted by
      the bank profile times the bank height. */
  lemma BankedRingLifted(libm: Libm, angle: real, radius: real, bankHeight: real, k: Steps, i: nat)
    ensures var flat, banked := TurnRing(libm, angle, radius, k, i), BankedRing(libm, angle, radius, bankHeight, k, i);
      && |flat| == |banked| == 4
      && forall r :: 0 <= r < 4 ==>
           banked[r] == if r < 2 then Vec3(flat[r].x, flat[r].y + SigmoidPeak(libm, i, k) * bankHeight, flat[r].z) else flat[r]
  {
  }

  /** Vertex `r` of ring `i` sits at index `4i + r` of the flat turn's
      vertex buffer. */
  lemma {:induction false} TurnVertexAt(libm: Libm, angle: real, radius: real, k: Steps, n: nat, i: nat, r: nat)
    requires i < n && r < 4
    ensures |TurnVertices(libm, angle, radius, k, n)| == 4 * n
    ensures TurnVertices(libm, angle, radius, k, n)[4 * i + r] == TurnRing(libm, angle, radius, k, i)[r]
  {
    TurnBufferLengths(libm, angle, radius, k, n - 1);
    if i < n - 1 {
      TurnVertexAt(libm, angle, radius, k, n - 1, i, r);
    }
  }

  /** Vertex `r` of ring `i` sits at index `4i + r` of the banked turn's
      vertex buffer. */
  lemma {:induction false} BankedVertexAt(libm: Libm, angle: real, radius: real, bankHeight: real, k: Steps, n: nat, i: nat, r: nat)
    requires i < n && r < 4
    ensures |BankedVertices(libm, angle, radius, bankHeight, k, n)| == 4 * n
    ensures BankedVertices(libm, angle, radius, bankHeight, k, n)[4 * i + r] == BankedRing(libm, angle, radius, bankHeight, k, i)[r]
  {
    if n > 1 {
      BankedVertexAt(libm, angle, radius, bankHeight, k, n - 1, if i < n - 1 then i else 0, r);
    }
  }

  /** `v` raised by `height`. */
  function Raised(v: Vec3, height: real): Vec3
  {
    Vec3(v.x, v.y + height, v.z)
  }

  /** Vertex `j` of `banked` is vertex `j` of `flat`, raised by the bank
      offset of its ring when it is an inner vertex (`j % 4 < 2`). */
  predicate LiftedAt(libm: Libm, bankHeight: real, k: Steps, flat: seq<Vec3>, banked: seq<Vec3>, j: nat)
    requires j < |flat| && j < |banked|
  {
    banked[j] == if j % 4 < 2 then Raised(flat[j], SigmoidPeak(libm, j / 4, k) * bankHeight) else flat[j]
  }

  /** Vertex `j` of the banked turn is vertex `j` of the flat turn, lifted
      by the bank profile at its ring when it is an inner vertex. */
  lemma BankedVertexLifted(libm: Libm, angle: real, radius: real, bankHeight: real, k: Steps, j: nat)
    requires j < 4 * (k + 1)
    ensures var flat, banked := TurnVertices(libm, angle, radius, k, k + 1), BankedVertices(libm, angle, radius, bankHeight, k, k + 1);
      && |flat| == |banked| == 4 * (k + 1)
      && LiftedAt(libm, bankHeight, k, flat, banked, j)
  {
    var i, r := j / 4, j % 4;
    Split(j, 4);
    TurnVertexAt(libm, angle, radius, k, k + 1, i, r);
    BankedVertexAt(libm, angle, radius, bankHeight, k, k + 1, i, r);
    BankedRingLifted(libm, angle, radius, bankHeight, k, i);
  }

  /** Every vertex of a banked turn of `k` steps is the flat turn's vertex,
      lifted when it is an inner one. */
  lemma BankedVerticesLifted(libm: Libm, angle: real, radius: real, bankHeight: real, k: Steps)
    ensures var flat, banked := TurnVertices(libm, angle, radius, k, k + 1), BankedVertices(libm, angle, radius, bankHeight, k, k + 1);
      && |flat| == |banked| == 4 * (k + 1)
      && forall j :: 0 <= j < 4 * (k + 1) ==> LiftedAt(libm, bankHeight, k, flat, banked, j)
  {
    var flat, banked := TurnVertices(libm, angle, radius, k, k + 1), BankedVertices(libm, angle, radius, bankHeight, k, k + 1);
    BankedVertexLifted(libm, angle, radius, bankHeight, k, 0);
    forall j | 0 <= j < 4 * (k + 1) ensures LiftedAt(libm, bankHeight, k, flat, banked, j) {
      BankedVertexLifted(libm, angle, radius, bankHeight, k, j);
    }
  }

  /** Ring by ring, the banked turn is the flat turn with its inner vertices
      lifted by the bank profile; everything but the positions is shared. */
  lemma BankedTurnRaisesInner(libm: Libm, angle: real, radius: real, bankHeight: real)
    ensures var k, flat, banked := TurnSteps(angle), TurnMesh(libm, angle, radius), BankedTurnMesh(libm, angle, radius, bankHeight);
      && banked.uvs == flat.uvs && banked.normals == flat.normals && banked.indices == flat.indices
      && |banked.positions| == |flat.positions| == 4 * (k + 1)
      && forall j :: 0 <= j < 4 * (k + 1) ==> LiftedAt(libm, bankHeight, k, flat.positions, banked.positions, j)
  {
    BankedVerticesLifted(libm, angle, radius, bankHeight, TurnSteps(angle));
  }

  /** The bank vanishes at both ends: the first and last rings of the banked
      turn are those of the flat turn, so it joins its neighbours as a flat
      turn would. */
  lemma BankedTurnEndsFlat(libm: Libm, angle: real, radius: real, bankHeight: real)
    ensures var k, flat, banked := TurnSteps(angle), TurnMesh(libm, angle, radius), BankedTurnMesh(libm, angle, radius, bankHeight);
      && |banked.positions| == |flat.positions| == 4 * (k + 1)
      && banked.positions[..4] == flat.positions[..4]
      && banked.positions[4 * k..] == flat.positions[4 * k..]
  {
    var k := TurnSteps(angle);
    var flat, banked := TurnVertices(libm, angle, radius, k, k + 1), BankedVertices(libm, angle, radius, bankHeight, k, k + 1);
    BankedVerticesLifted(libm, angle, radius, bankHeight, k);
    forall j | 0 <= j < 4 ensures banked[j] == flat[j] {
      assert LiftedAt(libm, bankHeight, k, flat, banked, j);
      assert j / 4 == 0;
    }
    forall j | 4 * k <= j < 4 * (k + 1) ensures banked[j] == flat[j] {
      assert LiftedAt(libm, bankHeight, k, flat, banked, j);
      DivModUnique(j, 4, k, j - 4 * k);
    }
    assert banked[..4] == flat[..4];
    assert banked[4 * k..] == flat[4 * k..];
  }

  /** The distances of ring `i` from the turn's centre, when the rotation at
      that ring keeps lengths: `radius + TRACK_WIDTH / 2` for the inner
      vertices, `radius - TRACK_WIDTH / 2` for the outer ones. */
  lemma TurnRingOnCircles(libm: Libm, angle: real, radius: real, k: Steps, i: nat)
    requires UnitAt(libm, -RingAngle(angle, k, i))
    ensures var ring := TurnRing(libm, angle, radius, k, i);
      && |ring| == 4
      && forall r :: 0 <= r < 4 ==>
           SquaredDistance(Vec2(ring[r].x, ring[r].z), Vec2(radius, 0.0))
             == if r < 2 then (radius + TRACK_WIDTH / 2.0) * (radius + TRACK_WIDTH / 2.0)
                else (radius - TRACK_WIDTH / 2.0) * (radius - TRACK_WIDTH / 2.0)
  {
    var a := -RingAngle(angle, k, i);
    var centre := Vec2(radius, 0.0);
    var inner, outer := InnerEdge(libm, angle, radius, k, i), OuterEdge(libm, angle, radius, k, i);
    var innerSquared := (radius + TRACK_WIDTH / 2.0) * (radius + TRACK_WIDTH / 2.0);
    var outerSquared := (radius - TRACK_WIDTH / 2.0) * (radius - TRACK_WIDTH / 2.0);
    assert SquaredDistance(inner, centre) == innerSquared by {
      RotatePointAroundFacts(libm, Vec2(-TRACK_WIDTH / 2.0, 0.0), centre, a);
      assert SquaredDistance(Vec2(-TRACK_WIDTH / 2.0, 0.0), centre) == innerSquared;
    }
    assert SquaredDistance(outer, centre) == outerSquared by {
      RotatePointAroundFacts(libm, Vec2(TRACK_WIDTH / 2.0, 0.0), centre, a);
      assert SquaredDistance(Vec2(TRACK_WIDTH / 2.0, 0.0), centre) == outerSquared;
    }
    var ring := TurnRing(libm, angle, radius, k, i);
    forall r | 0 <= r < 4
      ensures SquaredDistance(Vec2(ring[r].x, ring[r].z), centre) == if r < 2 then innerSquared else outerSquared
    {
      assert Vec2(ring[r].x, ring[r].z) == if r < 2 then inner else outer;
    }
  }

  /** The turn lies between two circles about its centre: wherever the
      rotation keeps lengths, inner vertices are `radius + TRACK_WIDTH / 2`
      and outer ones `radius - TRACK_WIDTH / 2` away from it. */
  lemma TurnRingsOnCircles(libm: Libm, angle: real, radius: real)
    ensures var k, mesh := TurnSteps(angle), TurnMesh(libm, angle, radius);
      && |mesh.positions| == 4 * (k + 1)
      && forall j :: 0 <= j < 4 * (k + 1) && UnitAt(libm, -RingAngle(angle, k, j / 4)) ==>
           SquaredDistance(Vec2(mesh.positions[j].x, mesh.positions[j].z), Vec2(radius, 0.0))
             == if j % 4 < 2 then (radius + TRACK_WIDTH / 2.0) * (radius + TRACK_WIDTH / 2.0)
                else (radius - TRACK_WIDTH / 2.0) * (radius - TRACK_WIDTH / 2.0)
  {
    var k := TurnSteps(angle);
    var mesh := TurnMesh(libm, angle, radius);
    TurnBufferLengths(libm, angle, radius, k, k + 1);
    forall j | 0 <= j < 4 * (k + 1) && UnitAt(libm, -RingAngle(angle, k, j / 4))
      ensures SquaredDistance(Vec2(mesh.positions[j].x, mesh.positions[j].z), Vec2(radius, 0.0))
                == if j % 4 < 2 then (radius + TRACK_WIDTH / 2.0) * (radius + TRACK_WIDTH / 2.0)
                   else (radius - TRACK_WIDTH / 2.0) * (radius - TRACK_WIDTH / 2.0)
    {
      TurnVertexOnCircle(libm, angle, radius, k, j);
    }
  }

  /** Vertex `j` of a flat turn of `k` steps lies on its ring's circle. */
  lemma TurnVertexOnCircle(libm: Libm, angle: real, radius: real, k: Steps, j: nat)
    requires j < 4 * (k + 1) && UnitAt(libm, -RingAngle(angle, k, j / 4))
    ensures var vertices := TurnVertices(libm, angle, radius, k, k + 1);
      && |vertices| == 4 * (k + 1)
      && SquaredDistance(Vec2(vertices[j].x, vertices[j].z), Vec2(radius, 0.0))
           == if j % 4 < 2 then (radius + TRACK_WIDTH / 2.0) * (radius + TRACK_WIDTH / 2.0)
              else (radius - TRACK_WIDTH / 2.0) * (radius - TRACK_WIDTH / 2.0)
  {
    Split(j, 4);
    TurnVertexAt(libm, angle, radius, k, k + 1, j / 4, j % 4);
    TurnRingOnCircles(libm, angle, radius, k, j / 4);
  }

  /** With an identity rotation at angle zero, ring 0 is the near edge of
      the road: inner floor and wall top at `-X`, outer ones at `+X`. */
  lemma FirstRingIsNearEdge(libm: Libm, angle: real, radius: real, k: Steps)
    requires IdentityAt(libm, 0.0)
    ensures TurnRing(libm, angle, radius, k, 0)
              == [Vec3(-TRACK_WIDTH / 2.0, 0.0, 0.0), Vec3(-TRACK_WIDTH / 2.0, WALL_HEIGHT, 0.0),
                  Vec3(TRACK_WIDTH / 2.0, 0.0, 0.0), Vec3(TRACK_WIDTH / 2.0, WALL_HEIGHT, 0.0)]
  {
    assert -RingAngle(angle, k, 0) == 0.0;
    RotatePointAroundFacts(libm, Vec2(-TRACK_WIDTH / 2.0, 0.0), Vec2(radius, 0.0), 0.0);
    RotatePointAroundFacts(libm, Vec2(TRACK_WIDTH / 2.0, 0.0), Vec2(radius, 0.0), 0.0);
  }

  /** With an identity rotation at angle zero, the turn starts exactly where
      a straight block starts: its first ring is the straight block's near
      floor and wall-top vertices. */
  lemma TurnStartsLikeStraight(libm: Libm, angle: real, radius: real, length: real)
    requires IdentityAt(libm, 0.0)
    ensures var turn, straight := TurnMesh(libm, angle, radius).positions, StraightMesh(length).positions;
      && |turn| >= 4
      && turn[..4] == [straight[0], straight[4], straight[1], straight[5]]
  {
    var k := TurnSteps(angle);
    var turn := TurnMesh(libm, angle, radius).positions;
    FirstRingIsNearEdge(libm, angle, radius, k);
    var ring := TurnRing(libm, angle, radius, k, 0);
    TurnBufferLengths(libm, angle, radius, k, k + 1);
    forall j | 0 <= j < 4 ensures turn[j] == ring[j] {
      TurnVertexAt(libm, angle, radius, k, k + 1, 0, j);
    }
    assert turn[..4] == ring;
  }

  // ---------------------------------------------------------------------
  // Bumpy blocks
  // ---------------------------------------------------------------------

  /** The parameters of a bumpy block: a `resolutionX` by `resolutionZ` grid
      of vertices over a `width` by `length` floor, displaced by noise. */
  datatype Grid = Grid(
    length: real,
    width: real,
    resolutionX: Resolution,
    resolutionZ: Resolution,
    perturbation: real,
    noise: Perlin,
    offset: Vec3)

  /** Grid vertex `(x, z)`: spread evenly from `-width / 2` to `width / 2`
      and from `0` to `length`; interior vertices are displaced vertically by
      the noise sampled at a sixth of their position plus the offset (whose
      `y` coordinate is added to the `z` sample), border vertices stay at
      height 0. */
  function GridPoint(g: Grid, x: nat, z: nat): Vec3
  {
    var zPos := g.length * (z as real) / ((g.resolutionZ - 1) as real);
    var xPos := -(g.width / 2.0) + g.width * (x as real) / ((g.resolutionX - 1) as real);
    var height :=
      if 0 < x < g.resolutionX - 1 && 0 < z < g.resolutionZ - 1 then
        g.noise.Get2(xPos / 6.0 + g.offset.x, zPos / 6.0 + g.offset.y) * g.perturbation
      else
        0.0;
    Vec3(xPos, height, zPos)
  }

  /** The texture coordinates of grid vertex `(x, z)`. */
  function GridUv(g: Grid, x: nat, z: nat): Vec2
  {
    Vec2(x as real / (g.resolutionX - 1) as real, z as real / (g.resolutionZ - 1) as real)
  }

  /** The first `n` vertices of grid row `z`. */
  function GridRow(g: Grid, z: nat, n: nat): seq<Vec3>
  {
    if n == 0 then [] else GridRow(g, z, n - 1) + [GridPoint(g, n - 1, z)]
  }

  /** The texture coordinates of the first `n` vertices of grid row `z`. */
  function UvRow(g: Grid, z: nat, n: nat): seq<Vec2>
  {
    if n == 0 then [] else UvRow(g, z, n - 1) + [GridUv(g, n - 1, z)]
  }

  /** The vertices of the first `m` grid rows, row after row. */
  function GridPositions(g: Grid, m: nat): seq<Vec3>
  {
    if m == 0 then [] else GridPositions(g, m - 1) + GridRow(g, m - 1, g.resolutionX)
  }

  /** The texture coordinates of the first `m` grid rows. */
  function GridUvs(g: Grid, m: nat): seq<Vec2>
  {
    if m == 0 then [] else GridUvs(g, m - 1) + UvRow(g, m - 1, g.resolutionX)
  }

  /** The two triangles of grid cell `(x, z)`: bottom-left, top-left,
      bottom-right, then bottom-right, top-left, top-right. */
  function CellIndices(resolutionX: Resolution, z: nat, x: nat): (r: seq<nat>)
    ensures |r| == 6
    ensures AllBelow(r, (z + 1) * resolutionX + x + 2)
    ensures forall j :: 0 <= j < |r| ==> z * resolutionX + x <= r[j]
  {
    var bottomLeft := z * resolutionX + x;
    var topLeft := (z + 1) * resolutionX + x;
    [bottomLeft, topLeft, bottomLeft + 1, bottomLeft + 1, topLeft, topLeft + 1]
  }

  /** The triangles of the first `n` cells of grid row `z`. */
  function CellRow(resolutionX: Resolution, z: nat, n: nat): seq<nat>
  {
    if n == 0 then [] else CellRow(resolutionX, z, n - 1) + CellIndices(resolutionX, z, n - 1)
  }

  /** The triangles of the first `m` rows of grid cells. */
  function GridIndices(resolutionX: Resolution, m: nat): seq<nat>
  {
    if m == 0 then [] else GridIndices(resolutionX, m - 1) + CellRow(resolutionX, m - 1, resolutionX - 1)
  }

  /** The wall-top vertices, in the order bottom left, bottom right, top
      right, top left. */
  function WallTops(g: Grid): seq<Vec3>
  {
    var halfWidth := g.width / 2.0;
    [Vec3(-halfWidth, 3.0, 0.0), Vec3(halfWidth, 3.0, 0.0), Vec3(halfWidth, 3.0, g.length), Vec3(-halfWidth, 3.0, g.length)]
  }

  /** The texture coordinates of the wall-top vertices. */
  const CORNER_UVS: seq<Vec2> := [Vec2(0.0, 0.0), Vec2(1.0, 0.0), Vec2(1.0, 1.0), Vec2(0.0, 1.0)]

  /** The two wall quads, as written against the vertex count `count`: the
      left wall joins grid corners `0` and `resolutionX * (resolutionZ - 1)`
      to the wall tops above them, the right wall grid corners
      `resolutionX - 1` and `resolutionX * resolutionZ - 1`. */
  function SideIndices(resolutionX: Resolution, resolutionZ: Resolution, count: nat): seq<nat>
    requires count >= 4
  {
    [0, count - 4, count - 1,
     0, count - 1, resolutionX * (resolutionZ - 1),
     resolutionZ * resolutionX - 1, count - 2, count - 3,
     resolutionX - 1, resolutionX * resolutionZ - 1, count - 3]
  }

  /** `n` zero vectors. */
  function Zeros(n: nat): seq<Vec3>
  {
    seq(n, _ => ZERO)
  }

  /** The bumpy block: the grid's vertices and the four wall tops, one UV
      per vertex, every normal zero (four more normals than vertices), the
      grid's cells and the two wall quads. */
  function BumpyMesh(g: Grid): Mesh
  {
    var rx, rz := g.resolutionX, g.resolutionZ;
    Mesh(GridPositions(g, rz) + WallTops(g),
         GridUvs(g, rz) + CORNER_UVS,
         Zeros(rx * rz + 8),
         GridIndices(rx, rz - 1) + SideIndices(rx, rz, rx * rz + 4))
  }

  /** `m` grid rows hold `m * resolutionX` vertices and UVs. */
  lemma {:induction false} GridBufferLengths(g: Grid, m: nat)
    ensures |GridPositions(g, m)| == |GridUvs(g, m)| == m * g.resolutionX
  {
    if m > 0 {
      GridBufferLengths(g, m - 1);
      GridRowAt(g, m - 1, g.resolutionX, 0);
      UvRowAt(g, m - 1, g.resolutionX, 0);
      assert m * g.resolutionX == (m - 1) * g.resolutionX + g.resolutionX;
    }
  }

  /** Element `x` of row `z`, once the row holds more than `x` vertices. */
  lemma {:induction false} GridRowAt(g: Grid, z: nat, n: nat, x: nat)
    ensures |GridRow(g, z, n)| == n
    ensures x < n ==> GridRow(g, z, n)[x] == GridPoint(g, x, z)
  {
    if n > 0 {
      GridRowAt(g, z, n - 1, x);
    }
  }

  lemma {:induction false} UvRowAt(g: Grid, z: nat, n: nat, x: nat)
    ensures |UvRow(g, z, n)| == n
    ensures x < n ==> UvRow(g, z, n)[x] == GridUv(g, x, z)
  {
    if n > 0 {
      UvRowAt(g, z, n - 1, x);
    }
  }

  /** Grid vertex `(x, z)` sits at index `z * resolutionX + x`. */
  lemma {:induction false} GridPositionsAt(g: Grid, m: nat, x: nat, z: nat)
    requires x < g.resolutionX && z < m
    ensures |GridPositions(g, m)| == m * g.resolutionX
    ensures z * g.resolutionX + x < m * g.resolutionX
    ensures GridPositions(g, m)[z * g.resolutionX + x] == GridPoint(g, x, z)
  {
    GridBufferLengths(g, m);
    GridBufferLengths(g, m - 1);
    MulMonotone(z + 1, m, g.resolutionX);
    if z < m - 1 {
      GridPositionsAt(g, m - 1, x, z);
    } else {
      GridRowAt(g, m - 1, g.resolutionX, x);
    }
  }

  /** The UV of grid vertex `(x, z)` sits at index `z * resolutionX + x`. */
  lemma {:induction false} GridUvsAt(g: Grid, m: nat, x: nat, z: nat)
    requires x < g.resolutionX && z < m
    ensures |GridUvs(g, m)| == m * g.resolutionX
    ensures z * g.resolutionX + x < m * g.resolutionX
    ensures GridUvs(g, m)[z * g.resolutionX + x] == GridUv(g, x, z)
  {
    GridBufferLengths(g, m);
    GridBufferLengths(g, m - 1);
    MulMonotone(z + 1, m, g.resolutionX);
    if z < m - 1 {
      GridUvsAt(g, m - 1, x, z);
    } else {
      UvRowAt(g, m - 1, g.resolutionX, x);
    }
  }

  /** `n` cells of a row hold `6n` indices, all naming vertices of that row
      or the next one up to the corner of cell `n - 1`. */
  lemma {:induction false} CellRowInRange(resolutionX: Resolution, z: nat, n: nat)
    ensures |CellRow(resolutionX, z, n)| == 6 * n
    ensures AllBelow(CellRow(resolutionX, z, n), (z + 1) * resolutionX + n + 1)
  {
    if n > 0 {
      CellRowInRange(resolutionX, z, n - 1);
      AllBelowAppend(CellRow(resolutionX, z, n - 1), CellIndices(resolutionX, z, n - 1), (z + 1) * resolutionX + n + 1);
    }
  }

  /** `m` rows of cells hold `6 (resolutionX - 1) m` indices, all naming
      vertices of the first `m + 1` grid rows. */
  lemma {:induction false} GridIndicesInRange(resolutionX: Resolution, m: nat)
    ensures |GridIndices(resolutionX, m)| == 6 * (resolutionX - 1) * m
    ensures AllBelow(GridIndices(resolutionX, m), (m + 1) * resolutionX)
  {
    if m > 0 {
      GridIndicesInRange(resolutionX, m - 1);
      CellRowInRange(resolutionX, m - 1, resolutionX - 1);
      assert 6 * (resolutionX - 1) * m == 6 * (resolutionX - 1) * (m - 1) + 6 * (resolutionX - 1);
      assert (m + 1) * resolutionX == m * resolutionX + resolutionX;
      AllBelowAppend(GridIndices(resolutionX, m - 1), CellRow(resolutionX, m - 1, resolutionX - 1), (m + 1) * resolutionX);
    }
  }

  /** Builds the bumpy block: the grid row by row, the wall tops, the cells
      row by row, the wall quads, and finally every normal reset to zero
      (with four more zero normals appended). */
  method GenerateBumpyMesh(g: Grid) returns (mesh: Mesh)
    ensures mesh == BumpyMesh(g)
  {
    var resolutionX: nat, resolutionZ: nat := g.resolutionX, g.resolutionZ;
    var positions: seq<Vec3> := [];
    var normals: seq<Vec3> := [];
    var uvs: seq<Vec2> := [];
    for z := 0 to resolutionZ
      invariant positions == GridPositions(g, z)
      invariant uvs == GridUvs(g, z)
      invariant |normals| == |positions|
    {
      for x := 0 to resolutionX
        invariant positions == GridPositions(g, z) + GridRow(g, z, x)
        invariant uvs == GridUvs(g, z) + UvRow(g, z, x)
        invariant |normals| == |positions|
      {
        positions := positions + [GridPoint(g, x, z)];
        uvs := uvs + [GridUv(g, x, z)];
        normals := normals + [UP];
      }
    }
    positions := positions + WallTops(g);
    normals := normals + [ZERO, ZERO, ZERO, ZERO];
    var count := |positions|;
    assert count == resolutionX * resolutionZ + 4 by {
      GridBufferLengths(g, resolutionZ);
      assert resolutionZ * resolutionX == resolutionX * resolutionZ;
    }

    var indices := GenerateGridIndices(g.resolutionX, resolutionZ - 1);
    indices := indices + SideIndices(resolutionX, resolutionZ, count);
    normals := ClearNormals(normals);
    normals := normals + [ZERO, ZERO, ZERO, ZERO];
    uvs := uvs + CORNER_UVS;
    mesh := Mesh(positions, uvs, normals, indices);
  }

  /** The triangles of the first `rows` rows of grid cells, cell by cell. */
  method GenerateGridIndices(resolutionX: Resolution, rows: nat) returns (indices: seq<nat>)
    ensures indices == GridIndices(resolutionX, rows)
  {
    indices := [];
    for z := 0 to rows
      invariant indices == GridIndices(resolutionX, z)
    {
      for x := 0 to resolutionX - 1
        invariant indices == GridIndices(resolutionX, z) + CellRow(resolutionX, z, x)
      {
        indices := indices + CellIndices(resolutionX, z, x);
      }
    }
  }

  /** Every normal of `normals` reset to zero, one at a time. */
  method ClearNormals(normals: seq<Vec3>) returns (cleared: seq<Vec3>)
    ensures cleared == Zeros(|normals|)
  {
    cleared := normals;
    for n := 0 to |cleared|
      invariant |cleared| == |normals|
      invariant forall j :: 0 <= j < n ==> cleared[j] == ZERO
    {
      cleared := cleared[n := ZERO];
    }
  }

  /** `resolutionX * resolutionZ + 4` vertices and UVs, four more normals
      than vertices, two triangles per grid cell plus four wall triangles,
      and every index names a vertex. */
  lemma BumpyMeshShape(g: Grid)
    ensures var rx, rz, mesh := g.resolutionX, g.resolutionZ, BumpyMesh(g);
      && |mesh.positions| == |mesh.uvs| == rx * rz + 4
      && |mesh.normals| == rx * rz + 8
      && |mesh.indices| == 6 * (rx - 1) * (rz - 1) + 12
      && IsTriangleList(mesh)
  {
    var rx: nat, rz: nat := g.resolutionX, g.resolutionZ;
    BumpyBufferLengths(g);
    BumpyIndicesInRange(g);
    var cells := (rx - 1) * (rz - 1);
    assert 6 * (rx - 1) * (rz - 1) == 6 * cells;
    TriangleListByCounts(BumpyMesh(g), cells, rx * rz + 4);
  }

  /** Six indices per cell plus twelve, all below a vertex count that every
      UV matches, make a triangle list. */
  lemma TriangleListByCounts(mesh: Mesh, cells: nat, count: nat)
    requires |mesh.indices| == 6 * cells + 12
    requires |mesh.positions| == |mesh.uvs| == count
    requires AllBelow(mesh.indices, count)
    ensures IsTriangleList(mesh)
  {
    assert 6 * cells + 12 == 3 * (2 * cells + 4);
    MultipleMod(2 * cells + 4, 3);
  }

  /** The vertex, UV and normal buffers of the bumpy block. */
  lemma BumpyBufferLengths(g: Grid)
    ensures var rx, rz, mesh := g.resolutionX, g.resolutionZ, BumpyMesh(g);
      && |mesh.positions| == |mesh.uvs| == rx * rz + 4
      && |mesh.normals| == rx * rz + 8
  {
    GridBufferLengths(g, g.resolutionZ);
    assert g.resolutionZ * g.resolutionX == g.resolutionX * g.resolutionZ;
  }

  /** The index buffer of the bumpy block: six indices per grid cell and
      twelve for the walls, all naming one of the `rx * rz + 4` vertices. */
  lemma BumpyIndicesInRange(g: Grid)
    ensures var rx, rz, mesh := g.resolutionX, g.resolutionZ, BumpyMesh(g);
      && |mesh.indices| == 6 * (rx - 1) * (rz - 1) + 12
      && AllBelow(mesh.indices, rx * rz + 4)
  {
    GridAndSideIndices(g.resolutionX, g.resolutionZ);
  }

  /** The cell indices of `rz - 1` rows followed by the wall indices. */
  lemma GridAndSideIndices(rx: Resolution, rz: Resolution)
    ensures var count := rx * rz + 4;
      var indices := GridIndices(rx, rz - 1) + SideIndices(rx, rz, count);
      && |indices| == 6 * (rx - 1) * (rz - 1) + 12
      && AllBelow(indices, count)
  {
    var count := rx * rz + 4;
    var grid, side := GridIndices(rx, rz - 1), SideIndices(rx, rz, count);
    assert |grid| == 6 * (rx - 1) * (rz - 1) && AllBelow(grid, count) by {
      GridIndicesInRange(rx, rz - 1);
      assert (rz - 1 + 1) * rx == count - 4;
    }
    assert |side| == 12 && AllBelow(side, count) by {
      SideIndicesInRange(rx, rz);
    }
    AllBelowAppend(grid, side, count);
  }

  /** The wall quads name vertices only. */
  lemma SideIndicesInRange(resolutionX: Resolution, resolutionZ: Resolution)
    ensures AllBelow(SideIndices(resolutionX, resolutionZ, resolutionX * resolutionZ + 4), resolutionX * resolutionZ + 4)
  {
    assert resolutionX * (resolutionZ - 1) == resolutionX * resolutionZ - resolutionX;
  }

  /** `a * i / n` lies between `0` and `a` when `i <= n` and `a >= 0`. */
  lemma FractionBetween(a: real, i: nat, n: nat)
    requires 0 < n && i <= n && a >= 0.0
    ensures 0.0 <= a * (i as real) / (n as real) <= a
  {
    var q := a * (i as real) / (n as real);
    assert q * (n as real) == a * (i as real);
    assert a * (i as real) <= a * (n as real);
  }

  /** The grid spans the road's width: its first and last columns lie on
      the edges `-width / 2` and `width / 2`, every column between them. */
  lemma GridPointAcross(g: Grid, x: nat, z: nat)
    requires x < g.resolutionX
    ensures var px := GridPoint(g, x, z).x;
      && (x == 0 ==> px == -(g.width / 2.0))
      && (x == g.resolutionX - 1 ==> px == g.width / 2.0)
      && (g.width >= 0.0 ==> -(g.width / 2.0) <= px <= g.width / 2.0)
  {
    var n: nat := g.resolutionX - 1;
    var across := g.width * (x as real) / (n as real);
    assert GridPoint(g, x, z).x == -(g.width / 2.0) + across;
    Spread(g.width, x, n);
  }

  /** The grid spans the block's length: its first and last rows lie at `0`
      and `length`, every row between them. */
  lemma GridPointAlong(g: Grid, x: nat, z: nat)
    requires z < g.resolutionZ
    ensures var pz := GridPoint(g, x, z).z;
      && (z == 0 ==> pz == 0.0)
      && (z == g.resolutionZ - 1 ==> pz == g.length)
      && (g.length >= 0.0 ==> 0.0 <= pz <= g.length)
  {
    var n: nat := g.resolutionZ - 1;
    assert GridPoint(g, x, z).z == g.length * (z as real) / (n as real);
    Spread(g.length, z, n);
  }

  /** Step `i` of `n` along a span of `a`: `0` first, `a` last, and in
      between for a non-negative span. */
  lemma Spread(a: real, i: nat, n: nat)
    requires 0 < n && i <= n
    ensures i == 0 ==> a * (i as real) / (n as real) == 0.0
    ensures i == n ==> a * (i as real) / (n as real) == a
    ensures a >= 0.0 ==> 0.0 <= a * (i as real) / (n as real) <= a
  {
    if a >= 0.0 {
      FractionBetween(a, i, n);
    }
  }

  /** Every component of a UV lies between 0 and 1, and the grid's corners
      get the texture's corners. */
  lemma GridUvGeometry(g: Grid, x: nat, z: nat)
    requires x < g.resolutionX && z < g.resolutionZ
    ensures var uv := GridUv(g, x, z);
      && 0.0 <= uv.x <= 1.0 && 0.0 <= uv.y <= 1.0
      && (uv.x == 0.0 <==> x == 0) && (uv.x == 1.0 <==> x == g.resolutionX - 1)
      && (uv.y == 0.0 <==> z == 0) && (uv.y == 1.0 <==> z == g.resolutionZ - 1)
  {
    var nx: nat, nz: nat := g.resolutionX - 1, g.resolutionZ - 1;
    assert GridUv(g, x, z) == Vec2(x as real / nx as real, z as real / nz as real);
    FractionBetween(1.0, x, nx);
    FractionBetween(1.0, z, nz);
  }

  /** Noise whose every sample lies in `[-1, 1]`. */
  ghost predicate NoiseBounded(noise: Perlin)
  {
    forall a: real, b: real :: -1.0 <= noise.Get2(a, b) <= 1.0
  }

  /** No vertex is displaced by more than the perturbation when the noise
      stays within `[-1, 1]`, and none at all without perturbation. */
  lemma BumpsBounded(g: Grid, x: nat, z: nat)
    ensures x == 0 || x == g.resolutionX - 1 || z == 0 || z == g.resolutionZ - 1 ==> GridPoint(g, x, z).y == 0.0
    ensures g.perturbation == 0.0 ==> GridPoint(g, x, z).y == 0.0
    ensures NoiseBounded(g.noise) ==> Abs(GridPoint(g, x, z).y) <= Abs(g.perturbation)
  {
    var p := GridPoint(g, x, z);
    if NoiseBounded(g.noise) && 0 < x < g.resolutionX - 1 && 0 < z < g.resolutionZ - 1 {
      var n := g.noise.Get2(p.x / 6.0 + g.offset.x, p.z / 6.0 + g.offset.y);
      assert -1.0 <= n <= 1.0;
      assert p.y == n * g.perturbation;
      if g.perturbation >= 0.0 {
        assert -g.perturbation <= n * g.perturbation <= g.perturbation;
      } else {
        assert g.perturbation <= n * g.perturbation <= -g.perturbation;
      }
    }
  }

  /** Grid vertex `(x, z)` and its UV sit at index `z * resolutionX + x` of
      the bumpy block's buffers. */
  lemma BumpyVertexAt(g: Grid, x: nat, z: nat)
    requires x < g.resolutionX && z < g.resolutionZ
    ensures var rx, rz, mesh := g.resolutionX, g.resolutionZ, BumpyMesh(g);
      && |mesh.positions| == |mesh.uvs| == rx * rz + 4
      && z * rx + x < rx * rz
      && mesh.positions[z * rx + x] == GridPoint(g, x, z)
      && mesh.uvs[z * rx + x] == GridUv(g, x, z)
  {
    GridPositionsAt(g, g.resolutionZ, x, z);
    GridUvsAt(g, g.resolutionZ, x, z);
  }

  /** Wall-top vertex `c` sits right after the grid vertices. */
  lemma WallTopAt(g: Grid, c: nat)
    requires c < 4
    ensures var mesh := BumpyMesh(g);
      && |mesh.positions| == g.resolutionX * g.resolutionZ + 4
      && mesh.positions[g.resolutionX * g.resolutionZ + c] == WallTops(g)[c]
  {
    GridBufferLengths(g, g.resolutionZ);
  }

  /** Grid corner `(x, z)` of the bumpy block lies on the road's edge, at
      height 0, at the start or the end of the block. */
  lemma CornerIsEdge(g: Grid, x: nat, z: nat)
    requires x == 0 || x == g.resolutionX - 1
    requires z == 0 || z == g.resolutionZ - 1
    ensures var rx, rz, mesh := g.resolutionX, g.resolutionZ, BumpyMesh(g);
      && |mesh.positions| == rx * rz + 4
      && z * rx + x < rx * rz
      && mesh.positions[z * rx + x]
           == Vec3(if x == 0 then -(g.width / 2.0) else g.width / 2.0, 0.0, if z == 0 then 0.0 else g.length)
  {
    BumpyVertexAt(g, x, z);
    GridPointAcross(g, x, z);
    GridPointAlong(g, x, z);
    BumpsBounded(g, x, z);
  }

  /** Each wall-top vertex stands `WALL_HEIGHT` above a corner of the grid:
      wall tops 0 to 3 above grid corners `(0, 0)`, `(resolutionX - 1, 0)`,
      `(resolutionX - 1, resolutionZ - 1)` and `(0, resolutionZ - 1)`. */
  lemma WallTopAboveCorner(g: Grid, x: nat, z: nat)
    requires x == 0 || x == g.resolutionX - 1
    requires z == 0 || z == g.resolutionZ - 1
    ensures var rx, rz, mesh := g.resolutionX, g.resolutionZ, BumpyMesh(g);
      var c := if z == 0 then (if x == 0 then 0 else 1) else (if x == 0 then 3 else 2);
      && |mesh.positions| == rx * rz + 4
      && z * rx + x < rx * rz
      && mesh.positions[rx * rz + c] == Vec3(mesh.positions[z * rx + x].x, WALL_HEIGHT, mesh.positions[z * rx + x].z)
  {
    WallTopAt(g, if z == 0 then (if x == 0 then 0 else 1) else (if x == 0 then 3 else 2));
    CornerIsEdge(g, x, z);
  }

  /** The last twelve indices are the wall quads. */
  lemma BumpyIndicesEndWithWalls(g: Grid)
    ensures var rx, rz, mesh := g.resolutionX, g.resolutionZ, BumpyMesh(g);
      && |mesh.indices| >= 12
      && mesh.indices[|mesh.indices| - 12..] == SideIndices(rx, rz, rx * rz + 4)
  {
    var mesh := BumpyMesh(g);
    var side := SideIndices(g.resolutionX, g.resolutionZ, g.resolutionX * g.resolutionZ + 4);
    assert mesh.indices == GridIndices(g.resolutionX, g.resolutionZ - 1) + side;
  }

  /** The wall quads stand on the road's edges: the first two wall triangles
      name only vertices on the left edge `x == -width / 2`, the last two
      only vertices on the right edge `x == width / 2`. */
  lemma WallQuadsOnEdges(g: Grid)
    ensures var rx, rz, mesh := g.resolutionX, g.resolutionZ, BumpyMesh(g);
      var side := SideIndices(rx, rz, rx * rz + 4);
      && |mesh.positions| == rx * rz + 4
      && AllBelow(side, |mesh.positions|)
      && (forall t :: 0 <= t < 6 ==> mesh.positions[side[t]].x == -(g.width / 2.0))
      && (forall t :: 6 <= t < 12 ==> mesh.positions[side[t]].x == g.width / 2.0)
  {
    var rx: nat, rz: nat := g.resolutionX, g.resolutionZ;
    SideIndicesInRange(rx, rz);
    WallTopAt(g, 0);
    WallTopAt(g, 1);
    WallTopAt(g, 2);
    WallTopAt(g, 3);
    CornerIsEdge(g, 0, 0);
    CornerIsEdge(g, rx - 1, 0);
    CornerIsEdge(g, rx - 1, rz - 1);
    CornerIsEdge(g, 0, rz - 1);
    assert (rz - 1) * rx + (rx - 1) == rx * rz - 1;
    assert (rz - 1) * rx + 0 == rx * (rz - 1);
  }

  // ---------------------------------------------------------------------
  // Dispatch on the block type
  // ---------------------------------------------------------------------

  /** The mesh of one block; bumpy blocks span the road's width with a
      `BUMPY_RESOLUTION` by `BUMPY_RESOLUTION` grid. */
  function MeshOf(libm: Libm, block: BlockType, noise: Perlin, offset: Vec3): Mesh
  {
    match block
    case Straight(length) => StraightMesh(length)
    case Turn(angle, radius) => TurnMesh(libm, angle, radius)
    case Slope(length, heightChange) => SlopeMesh(length, heightChange)
    case BankedTurn(angle, radius, bankHeight) => BankedTurnMesh(libm, angle, radius, bankHeight)
    case Bumpy(length, perturbation) =>
      BumpyMesh(Grid(length, TRACK_WIDTH, BUMPY_RESOLUTION, BUMPY_RESOLUTION, perturbation, noise, offset))
  }

  /** Builds the mesh of one block with the builder for its type. */
  method GenerateMeshForBlock(libm: Libm, block: BlockType, noise: Perlin, offset: Vec3) returns (mesh: Mesh)
    ensures mesh == MeshOf(libm, block, noise, offset)
  {
    match block {
      case Straight(length) =>
        mesh := StraightMesh(length);
      case Turn(angle, radius) =>
        mesh := GenerateTurnMesh(libm, angle, radius);
      case Slope(length, heightChange) =>
        mesh := SlopeMesh(length, heightChange);
      case BankedTurn(angle, radius, bankHeight) =>
        mesh := GenerateBankedTurnMesh(libm, angle, radius, bankHeight);
      case Bumpy(length, perturbation) =>
        mesh := GenerateBumpyMesh(Grid(length, TRACK_WIDTH, BUMPY_RESOLUTION, BUMPY_RESOLUTION, perturbation, noise, offset));
    }
  }

  /** Every block's mesh is a triangle list with a normal per vertex, except
      the bumpy block's, which carries four normals more than vertices. */
  lemma EveryBlockMeshIsTriangleList(libm: Libm, block: BlockType, noise: Perlin, offset: Vec3)
    ensures var mesh := MeshOf(libm, block, noise, offset);
      && IsTriangleList(mesh)
      && |mesh.indices| > 0
      && |mesh.normals| == if block.Bumpy? then |mesh.positions| + 4 else |mesh.positions|
  {
    var mesh := MeshOf(libm, block, noise, offset);
    match block {
      case Straight(length) =>
        assert mesh == StraightMesh(length);
      case Slope(length, heightChange) =>
        assert mesh == SlopeMesh(length, heightChange);
      case Turn(angle, radius) =>
        assert mesh == TurnMesh(libm, angle, radius);
        TurnMeshShape(libm, angle, radius);
      case BankedTurn(angle, radius, bankHeight) =>
        assert mesh == BankedTurnMesh(libm, angle, radius, bankHeight);
        TurnMeshShape(libm, angle, radius);
        BankedTurnRaisesInner(libm, angle, radius, bankHeight);
      case Bumpy(length, perturbation) =>
        var g := Grid(length, TRACK_WIDTH, BUMPY_RESOLUTION, BUMPY_RESOLUTION, perturbation, noise, offset);
        assert mesh == BumpyMesh(g);
        BumpyMeshShape(g);
    }
  }
}
