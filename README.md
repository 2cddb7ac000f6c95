# Marble track generator: a verified model

This project models the core of a multiplayer marble-racing game written in
Rust with Bevy. The core is the procedural track generator and the mesh
builders that turn each track piece into a triangle list. Around them sit
the small pieces of gameplay logic that the server and the network protocol
share.

- **`maths.dfy`** (`Maths`): real 2-D and 3-D vectors. The foreign numeric
  functions (`sin`, `cos`, `exp`, Perlin noise) are passed in as function
  values. Their identities (`cos² + sin² = 1`, an identity rotation at 0,
  `exp ≥ 1`) are hypotheses of the lemmas that need them, never axioms.
- **`sequences.dfy`** (`Sequences`): concatenation of equally long blocks
  and index bounds. The mesh buffers are built from these.
- **`track_gen.dfy`** (`TrackGen`): the track pieces and their end
  transforms. Also `rotate_point_around`, the block-selection policy, road
  type and modifier sampling, and the `Track` class. Its three mutable
  fields are the segments, the cursor pose and the turn accumulator.
  `AppendBlock`, `DebugStraight` and `Generate` are methods that keep the
  class invariant: the track starts at the origin and every segment begins
  where the previous one ends. A pose is a position plus a yaw angle, since
  the generator only ever composes rotations about Y starting from the
  identity.
- **`track_mesh.dfy`** (`TrackMesh`): one mesh per block type.
  - The straight and slope meshes are literal buffers, so they are
    functions.
  - The turn, banked-turn and bumpy builders are methods whose loops fill
    the buffers. Each is proved equal to a specification function.
  - Lemmas about those functions state the vertex and index counts, index
    ranges, vertex placement, the banking profile and the flat border of
    the bumpy grid.
- **`protocol.dfy`** (`Protocol`): player-position interpolation, the
  arrow-key `Direction` and the `Inputs` message.
- **`server_input.dfy`** (`ServerInput`): how one input nudges a marble's
  linear velocity. The velocity is a class updated in place.
- **`server.dfy`** (`Server`): where the server places a newly spawned
  marble across the start strip.

All quantities are reals. Where the code's `f32` arithmetic has a
behaviour of its own that matters (a division by zero), it is written out.

## Model

| member | source | states |
|---|---|---|
| TrackGen.CalculateEndTransform | src/track_gen.rs:292-341 | A block turns the cursor by exactly its turn angle (turns and banked turns) and raises it by exactly its height change (slopes); every other block keeps yaw and height |
| TrackGen.BankedTurnEndsLikeTurn | src/track_gen.rs:299-335 | A banked turn ends where the flat turn with the same angle and radius ends; the bank height plays no part |
| TrackGen.BumpyEndsLikeStraight | src/track_gen.rs:294-339 | A bumpy block ends where a straight block of the same length ends; the perturbation plays no part |
| TrackGen.FlatSlopeEndsLikeStraight | src/track_gen.rs:294-323 | A slope with no height change ends where a straight block of the same length ends |
| TrackGen.TurnEndsOnItsCircle | src/track_gen.rs:299-310 | Given `cos² + sin² = 1` at the turn angle, a turn's end offset lies on the circle of its radius about the turn centre |
| TrackGen.RotateY | src/track_gen.rs:292-341 | A Y-rotation never changes the height of a vector, and an identity rotation leaves it unchanged |
| TrackGen.RotatePointAroundFacts | src/track_gen.rs:344-361 | Rotating the centre gives the centre; an identity rotation keeps the point; a half turn reflects it through the centre; a unit rotation keeps its distance to the centre |
| TrackGen.PosesAreRunningSums | src/track_gen.rs:292-341 | On a track chained from the origin, every stored yaw is the sum of the turn angles before it, and every stored height is the sum of the slope height changes before it; the cursor carries the sums over all segments |
| TrackGen.TurnRadius | src/track_gen.rs:265-272 | Every turn radius is at least 10 |
| TrackGen.SelectNextBlock | src/track_gen.rs:204-263 | Past a quarter turn since the last slope, the next block is a 25-long slope descending at least 10. Otherwise the noise magnitude thresholds 0.15/0.3/0.55/0.7 pick straight 10, turn, bumpy 15/0.4, banked turn, or a 15-long slope descending at least 10. Turn angles are at least 0.3, radii at least 10, and the bank height is `4·angle/π` |
| TrackGen.TurnRunStep | src/track_gen.rs:161-166 | One block keeps "at most six turns since the last slope, each adding at least 0.3 to the accumulator": a turn adds its angle, a slope resets both counts, and the seventh turn is impossible because six turns already pass a quarter turn |
| TrackGen.TurnRunsAreShort | src/track_gen.rs:159-199 | On a track whose blocks the selection policy chose, starting with a slope, at most six turns follow the last slope, and the accumulator is at least 0.3 per turn |
| TrackGen.AllTurnRunsAreShort | src/track_gen.rs:159-199 | On such a track, every prefix ends with at most six turns after its last slope |
| TrackGen.RoadTypeAt | src/track_gen.rs:167-180 | The road is ice exactly when the noise magnitude at half the entry position is below 0.1 |
| TrackGen.ModifierAt | src/track_gen.rs:181-197 | A modifier is present exactly when the noise magnitude at the entry position offset by 40π is above 0.7, and then it is a gravity change of strength 4 for 10 seconds |
| TrackGen.Track.Empty | src/track_gen.rs:140-148 | A new track is empty, its cursor is at the origin with zero yaw, and its accumulator is 0 |
| TrackGen.Track.AppendBlock | src/track_gen.rs:274-290 | Appending adds exactly one segment, placed at the old cursor, and keeps the earlier ones. The cursor moves to the block's end transform, the accumulator is untouched, and the track stays chained from the origin |
| TrackGen.PiecesAre | src/track_gen.rs:63-138 | A track's pieces are a given layout exactly when it has one segment per entry and each segment's block, road type and modifier are that entry |
| TrackGen.Track.DebugStraight | src/track_gen.rs:63-138 | The debug track is chained from the origin and holds exactly the ten listed pieces in order: all asphalt, with a gravity change of strength 10 for 10 seconds on the third piece only |
| TrackGen.Track.Generate | src/track_gen.rs:139-202 | A generated track has 101 segments, chained from the origin. The first is an asphalt slope of the initial length descending 3, at the origin, without modifier. Every later block, road type and modifier is what the policy and the samplers give at its entry pose. The accumulator matches the blocks, and no run of turns between slopes is longer than six |
| TrackMesh.StraightMesh | src/track_mesh.rs:35-93 | 8 vertices and normals and 18 indices, all naming a vertex. The four floor vertices are at height 0, on the road's edges, at the start or the end. Each wall-top vertex stands at height 3 over its floor vertex |
| TrackMesh.SlopeNormalAsWrittenIsTilted | src/track_mesh.rs:452-461 | The floor normal as written is not perpendicular to the slope's floor direction unless the slope is flat or has length 0 |
| TrackMesh.SlopeNormal | src/track_mesh.rs:452-461 | The corrected floor normal is perpendicular to the floor's direction along the slope and across it, and points up for a positive length |
| TrackMesh.SlopeMesh | src/track_mesh.rs:415-475 | The slope mesh is a triangle list with 8 vertices and normals and 18 indices; its four floor normals are the normal as the code computes it, `(−h, length, 0)` |
| TrackMesh.CorrectedSlopeMesh | src/track_mesh.rs:452-471 | The slope mesh with the corrected floor normal keeps every other buffer of the built mesh, and its four floor normals are perpendicular to the floor along and across the slope |
| TrackMesh.SlopeRaisesStraight | src/track_mesh.rs:415-475 | The slope has the straight block's indices, UVs and wall normals. Each far-end vertex is the straight block's vertex raised by the height change, each near-end vertex is unchanged, and with no height change the two are identical |
| TrackMesh.ZeroPeak | src/track_mesh.rs:393-412 | `2 / (1 + exp(5x²))` lies strictly between 0 and 2; it is at most 1 where the exponential is at least 1, and exactly 1 at `x = 0` when `exp(0) = 1` |
| TrackMesh.SigmoidPeak | src/track_mesh.rs:378-391 | The bank profile is 0 at the first and the last ring and lies in [0, 2) |
| TrackMesh.BankOffsetBounded | src/track_mesh.rs:378-412 | With `exp ≥ 1` on non-negative arguments, the bank profile lies in [0, 1], so no bank offset exceeds the bank height in magnitude |
| TrackMesh.TurnSteps | src/track_mesh.rs:237-239 | The step count is the least positive integer not below `|angle|·10`, and at least 1 |
| TrackMesh.QuadIndices | src/track_mesh.rs:274-300 | Each quad between rings `i` and `i + 1` contributes 18 indices, all below `4i + 8` |
| TrackMesh.TurnIndicesInRange | src/track_mesh.rs:274-300 | `n` quads hold `18n` indices, all naming one of the `4n + 4` vertices of the rings they join |
| TrackMesh.GenerateTurnMesh | src/track_mesh.rs:236-304 | The loop builds exactly the turn mesh: ring by ring for the vertices, UVs and normals, quad by quad for the indices |
| TrackMesh.GenerateBankedTurnMesh | src/track_mesh.rs:307-376 | The loop builds exactly the banked-turn mesh |
| TrackMesh.TurnMeshShape | src/track_mesh.rs:236-304 | With `K` steps, the turn has `4(K + 1)` vertices, UVs and normals and `18K` indices, each below `4K + 4`: a triangle list |
| TrackMesh.TurnVertexAt | src/track_mesh.rs:247-264 | Vertex `4i + r` of the turn is vertex `r` of ring `i`: inner floor, inner wall top, outer floor, outer wall top |
| TrackMesh.BankedVertexAt | src/track_mesh.rs:318-336 | Vertex `4i + r` of the banked turn is vertex `r` of banked ring `i` |
| TrackMesh.BankedRingLifted | src/track_mesh.rs:318-336 | In every ring, the banked turn's inner vertices are the flat turn's raised by profile times bank height; its outer vertices are the flat turn's |
| TrackMesh.BankedTurnRaisesInner | src/track_mesh.rs:307-376 | The banked turn has the flat turn's UVs, normals, indices and vertex count. Its inner vertices are the flat ones raised by profile times bank height, and its outer vertices are the flat ones |
| TrackMesh.BankedTurnEndsFlat | src/track_mesh.rs:332-336 | The first and the last ring of a banked turn coincide with the flat turn's |
| TrackMesh.TurnRingOnCircles | src/track_mesh.rs:247-264 | Given a unit rotation at the ring's angle, the ring's inner vertices lie at distance `radius + 5` from the turn centre and its outer ones at `radius − 5` |
| TrackMesh.TurnRingsOnCircles | src/track_mesh.rs:236-304 | The same for every vertex of the turn mesh whose ring angle has a unit rotation |
| TrackMesh.FirstRingIsNearEdge | src/track_mesh.rs:247-264 | With an identity rotation at 0, the first ring is the near edge of the road: floor and wall top at `x = ∓5` |
| TrackMesh.TurnStartsLikeStraight | src/track_mesh.rs:247-264 | With an identity rotation at 0, the turn's first ring matches the straight block's near-end vertices |
| TrackMesh.CellIndices | src/track_mesh.rs:170-189 | A grid cell contributes six indices, none below its own bottom-left corner and none above its top-right corner, so all name vertices of its own row or the row above |
| TrackMesh.GridIndicesInRange | src/track_mesh.rs:170-189 | `m` rows of cells hold `6(rx − 1)m` indices, all naming vertices of the first `m + 1` grid rows |
| TrackMesh.GenerateGridIndices | src/track_mesh.rs:170-189 | The nested loops produce exactly the grid's cell indices, row by row and cell by cell |
| TrackMesh.ClearNormals | src/track_mesh.rs:211-213 | Resetting each normal in place leaves as many normals as before, every one zero |
| TrackMesh.GenerateBumpyMesh | src/track_mesh.rs:94-220 | The builder produces exactly the bumpy mesh: the grid row by row, the wall tops, the cell and wall indices, zeroed normals with four more appended, and the corner UVs |
| TrackMesh.BumpyBufferLengths | src/track_mesh.rs:121-219 | `rx·rz + 4` vertices and UVs and `rx·rz + 8` normals |
| TrackMesh.BumpyIndicesInRange | src/track_mesh.rs:170-208 | `6(rx − 1)(rz − 1) + 12` indices, all below the vertex count `rx·rz + 4` |
| TrackMesh.BumpyMeshShape | src/track_mesh.rs:94-220 | The vertex, UV, normal and index counts together, and the positions and indices form a triangle list |
| TrackMesh.SideIndicesInRange | src/track_mesh.rs:195-208 | The twelve wall indices all name vertices |
| TrackMesh.GridPointAcross | src/track_mesh.rs:127-129 | The first grid column lies on the road's left edge and the last on its right edge; for a non-negative width, every column lies between them |
| TrackMesh.GridPointAlong | src/track_mesh.rs:121-123 | The first grid row lies at 0 and the last at the block's length; for a non-negative length, every row lies between them |
| TrackMesh.GridUvGeometry | src/track_mesh.rs:124-131 | Every texture coordinate lies in [0, 1]; it is 0 exactly on the first row or column and 1 exactly on the last |
| TrackMesh.BumpsBounded | src/track_mesh.rs:135-147 | Border vertices have height exactly 0, as does every vertex without perturbation. With noise in [−1, 1], no vertex is displaced by more than the perturbation |
| TrackMesh.BumpyVertexAt | src/track_mesh.rs:121-154 | Grid vertex `(x, z)` and its UV sit at index `z·rx + x` |
| TrackMesh.WallTopAt | src/track_mesh.rs:155-160 | The four wall tops follow the `rx·rz` grid vertices |
| TrackMesh.CornerIsEdge | src/track_mesh.rs:121-154 | Each grid corner lies at height 0, on the road's edge, at the start or the end of the block |
| TrackMesh.WallTopAboveCorner | src/track_mesh.rs:155-160 | Each wall top stands at height 3 exactly above its grid corner |
| TrackMesh.BumpyIndicesEndWithWalls | src/track_mesh.rs:195-208 | The last twelve indices are the wall quads |
| TrackMesh.WallQuadsOnEdges | src/track_mesh.rs:195-208 | The left wall's two triangles name only vertices on the left edge, the right wall's only vertices on the right edge |
| TrackMesh.GenerateMeshForBlock | src/track_mesh.rs:14-32 | Dispatch builds each block type's mesh; a bumpy block gets a 20 × 20 grid across the road's width |
| TrackMesh.EveryBlockMeshIsTriangleList | src/track_mesh.rs:14-32 | Every block's mesh is a non-empty triangle list with one UV per vertex; normals match vertices except for bumpy blocks, which have four more |
| Protocol.LerpEndpoints | src/protocol.rs:11-13 | Interpolation at 0 gives the start and at 1 the other position |
| Protocol.LerpBetweenEqual | src/protocol.rs:11-13 | Interpolating between equal positions gives that position for every parameter |
| Protocol.LerpIsAffine | src/protocol.rs:11-13 | Interpolation moves along the segment at a constant rate: two parameters differ by their difference times the segment |
| Protocol.IsSomeUnlessNoKey | src/protocol.rs:28-30 | A direction is "some" exactly when at least one key is held, that is, unless it is the all-false direction |
| Server.DistributeSpace | src/server.rs:269-281 | The lane centre is infinite exactly when there are no lanes, that is, when the lane width divides by zero |
| Server.LanesInsideStrip | src/server.rs:269-281 | For `i < max` the centre is finite and strictly inside (−4.5, 4.5) |
| Server.LanesEvenlySpaced | src/server.rs:269-281 | Consecutive lanes are exactly `9 / max` apart |
| Server.LanesIncreasing | src/server.rs:269-281 | Placement is strictly increasing in the marble's number |
| Server.LanesSymmetric | src/server.rs:269-281 | Lane `i` mirrors lane `max − 1 − i` about 0, and a single lane sits at 0 |
| ServerInput.SharedMovementBehaviour | src/server_input.rs:38-57 | The linear velocity becomes the steered velocity, key by key in the source's order, and the angular velocity is untouched |
| ServerInput.SteeredByAxes | src/server_input.rs:42-53 | Forward adds 0.1 to `x` and back subtracts it; right adds 0.1 to `z` and left subtracts it; `y` never changes |
| ServerInput.IdleInputsKeepVelocity | src/server_input.rs:40-56 | Spawn, none and a direction with no key held leave the velocity unchanged |
| ServerInput.OppositeKeysCancel | src/server_input.rs:42-53 | Forward with back leaves `x` unchanged, left with right leaves `z` unchanged, and no input changes `y` |
| ServerInput.SteeringBounded | src/server_input.rs:42-53 | One input changes each horizontal velocity component by at most 0.1 |

## Left out

- Floating point: all arithmetic is over reals. `f32` rounding, overflow, NaN and the precision of `sin`, `cos`, `exp`, `sqrt` and `ceil` are not modelled. `sin`, `cos` and `exp` are uninterpreted functions, and the lemmas that need an identity of them take it as a hypothesis.
- Perlin noise (the `noise` crate) is an uninterpreted function of the seed and the sample point. The `f64`/`f32` conversions around it are not modelled.
- Bevy's `Quat` and `Vec3` internals: a pose is a position plus a yaw angle, which is exact because the generator only composes Y-rotations from the identity.
- Bevy's mesh plumbing is a library wrapper and is not part of this model: `create_mesh_from_attributes`, `Mesh::insert_attribute` and `Mesh::compute_smooth_normals`. The bumpy mesh is therefore modelled as the buffers it hands to Bevy, with `rx·rz + 8` normals, not the smooth normals Bevy computes afterwards.
- TrackMesh.SlopeMesh: the floor normal is the unnormalised direction `(−h, length, 0)` the code divides by its length. The division by `sqrt(length² + height²)` is left out because `sqrt` is foreign floating-point code.
- `u32`/`usize` casts of indices and step counts are unbounded naturals: no mesh in the game comes near `2³²` indices.
- The turn builders' loop bodies are written through ring helper functions (one ring of four vertices, UVs, normals and one quad of indices per iteration). The loops keep the source's shape.
- The Perlin sample for the bumpy grid uses `offset.y` with the `z` coordinate, as written in the source.
- ServerInput.SharedMovementBehaviour: over reals, so `x + 0.1 − 0.1 == x` exactly. In `f32` the cancellation may be off by one rounding step.
- Server.DistributeSpace: `max == 0` makes `f32` division give infinity (`9 / 0`), and then the result is positive infinity. That is the only non-finite case the model keeps; NaN cannot arise from these operands.
- The systems around `shared_movement_behaviour` (`movement`, `sync_positions`), networking, authentication, cameras, ECS spawning, keyboard input, configuration and the Python bot are I/O, concurrency or UI.
- Non-overlap, net descent and pitch bounds for particular seeds depend on concrete noise values and are not enforced by the code; pitch is always 0 under the yaw-only pose model.
- The test in `src/track_mesh.rs` that bounds the vertices of a zero turn by ±1 × ±0.5 × ±1 does not hold for a 10-wide road with 3-high walls, so it is not stated as a property.

## Findings

| source | as written | input that shows it | evidently intended | confidence | as-written member | corrected member |
|---|---|---|---|---|---|---|
| src/track_mesh.rs:452-461 | The slope's floor normal is `(−h, length, 0)`, normalised: tilted about the Z axis. The floor rises along Z by `(0, h, length)`, so this normal is not perpendicular to the floor | `length = 10`, `h = −10`: the dot product with the floor direction is `length·h = −100`, not 0 | The normal `(0, length, −h)`, normalised, perpendicular to the floor both along and across the slope | not executed | TrackMesh.SlopeNormalAsWrittenIsTilted | TrackMesh.SlopeNormal |
