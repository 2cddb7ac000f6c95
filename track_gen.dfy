/**
 * The procedural track generator: block types, the closed-form transform
 * that carries a block's entry to its exit, the noise-driven selection
 * policy, and the `Track` whose `AppendBlock` keeps consecutive pieces
 * chained end to start.
 *
 * Every rotation the generator builds is `Quat::IDENTITY` composed with
 * `Quat::from_rotation_y` of some angle, so a rotation is kept as its yaw
 * angle: composing two Y-rotations adds their angles, and no pitch or roll
 * can arise.
 */
module TrackGen {
  import opened Maths

  datatype BlockTransform = BlockTransform(position: Vec3, yaw: real)

  /** `Vec3::ZERO` with `Quat::IDENTITY`: where every track starts. */
  const ORIGIN: BlockTransform := BlockTransform(ZERO, 0.0)

  datatype BlockType =
    | Straight(length: real)
    | Turn(angle: real, radius: real)
    | BankedTurn(angle: real, radius: real, bankHeight: real)
    | Slope(length: real, heightChange: real)
    | Bumpy(length: real, perturbation: real)

  datatype RoadType = Asphalt | Ice

  /** The generator only builds whole-second durations, kept as seconds. */
  datatype BallModifier = GravityChange(strength: real, durationSecs: nat) | None

  datatype TrackSegment = TrackSegment(
    blockType: BlockType,
    transform: BlockTransform,
    roadType: RoadType,
    modifier: BallModifier)

  // ---------------------------------------------------------------------
  // Transform chaining
  // ---------------------------------------------------------------------

  /** `Quat::from_rotation_y(yaw) * v` */
  function RotateY(libm: Libm, yaw: real, v: Vec3): (r: Vec3)
    ensures r.y == v.y
    ensures IdentityAt(libm, yaw) ==> r == v
  {
    Vec3(v.x * libm.cos(yaw) + v.z * libm.sin(yaw),
         v.y,
         v.z * libm.cos(yaw) - v.x * libm.sin(yaw))
  }

  function SquaredDistance(a: Vec2, b: Vec2): real
  {
    (a.x - b.x) * (a.x - b.x) + (a.y - b.y) * (a.y - b.y)
  }

  /** Rotating `(x, y)` by a unit `(c, s)` keeps its squared length. */
  lemma RotationKeepsLength(x: real, y: real, c: real, s: real)
    requires c * c + s * s == 1.0
    ensures (x * c - y * s) * (x * c - y * s) + (x * s + y * c) * (x * s + y * c) == x * x + y * y
  {
    calc {
      (x * c - y * s) * (x * c - y * s) + (x * s + y * c) * (x * s + y * c);
      x * x * (c * c + s * s) + y * y * (c * c + s * s);
    }
  }

  /** Rotates `point` by `angle` about `around`. */
  function RotatePointAround(libm: Libm, point: Vec2, around: Vec2, angle: real): Vec2
  {
    var xTranslated := point.x - around.x;
    var yTranslated := point.y - around.y;
    var cosAngle := libm.cos(angle);
    var sinAngle := libm.sin(angle);
    var xRotated := xTranslated * cosAngle - yTranslated * sinAngle;
    var yRotated := xTranslated * sinAngle + yTranslated * cosAngle;
    Vec2(xRotated + around.x, yRotated + around.y)
  }

  /** The centre stays put, an identity rotation changes nothing, a half
      turn reflects through the centre, and a rotation whose cosine and sine
      form a unit vector keeps the distance to the centre. */
  lemma RotatePointAroundFacts(libm: Libm, point: Vec2, around: Vec2, angle: real)
    ensures var r := RotatePointAround(libm, point, around, angle);
      && (point == around ==> r == around)
      && (IdentityAt(libm, angle) ==> r == point)
      && (libm.cos(angle) == -1.0 && libm.sin(angle) == 0.0 ==>
            r == Vec2(2.0 * around.x - point.x, 2.0 * around.y - point.y))
      && (UnitAt(libm, angle) ==> SquaredDistance(r, around) == SquaredDistance(point, around))
  {
    if UnitAt(libm, angle) {
      RotationKeepsLength(point.x - around.x, point.y - around.y, libm.cos(angle), libm.sin(angle));
    }
  }

  /** The yaw a block adds to the cursor. */
  function TurnAngle(blockType: BlockType): real
  {
    match blockType
    case Turn(angle, _) => angle
    case BankedTurn(angle, _, _) => angle
    case _ => 0.0
  }

  /** The height a block adds to the cursor. */
  function HeightChange(blockType: BlockType): real
  {
    if blockType.Slope? then blockType.heightChange else 0.0
  }

  /** The exit transform of a block entered at `from`. */
  function CalculateEndTransform(libm: Libm, from: BlockTransform, blockType: BlockType): (r: BlockTransform)
    ensures r.yaw == from.yaw + TurnAngle(blockType)
    ensures r.position.y == from.position.y + HeightChange(blockType)
  {
    match blockType
    case Straight(length) =>
      BlockTransform(Add(from.position, Scale(RotateY(libm, from.yaw, UNIT_Z), length)), from.yaw)
    case Turn(angle, radius) =>
      var rotation := angle + from.yaw;
      var positionOffset := RotatePointAround(libm, Vec2(0.0, 0.0), Vec2(radius, 0.0), -angle);
      var position := Add(from.position, RotateY(libm, from.yaw, Vec3(positionOffset.x, 0.0, positionOffset.y)));
      BlockTransform(position, rotation)
    case Slope(length, heightChange) =>
      var rotation := from.yaw;
      BlockTransform(Add(from.position, RotateY(libm, from.yaw, Vec3(0.0, heightChange, length))), rotation)
    case BankedTurn(angle, radius, _) =>
      var rotation := angle + from.yaw;
      var positionOffset := RotatePointAround(libm, Vec2(0.0, 0.0), Vec2(radius, 0.0), -angle);
      var position := Add(from.position, RotateY(libm, from.yaw, Vec3(positionOffset.x, 0.0, positionOffset.y)));
      BlockTransform(position, rotation)
    case Bumpy(length, _) =>
      BlockTransform(Add(from.position, Scale(RotateY(libm, from.yaw, UNIT_Z), length)), from.yaw)
  }

  /** The bank height of a banked turn never influences where it ends. */
  lemma BankedTurnEndsLikeTurn(libm: Libm, from: BlockTransform, angle: real, radius: real, bankHeight: real)
    ensures CalculateEndTransform(libm, from, BankedTurn(angle, radius, bankHeight))
         == CalculateEndTransform(libm, from, Turn(angle, radius))
  {
  }

  /** The perturbation of a bumpy block never influences where it ends. */
  lemma BumpyEndsLikeStraight(libm: Libm, from: BlockTransform, length: real, perturbation: real)
    ensures CalculateEndTransform(libm, from, Bumpy(length, perturbation))
         == CalculateEndTransform(libm, from, Straight(length))
  {
  }

  /** A slope with no height change ends where a straight block of equal length ends. */
  lemma FlatSlopeEndsLikeStraight(libm: Libm, from: BlockTransform, length: real)
    ensures CalculateEndTransform(libm, from, Slope(length, 0.0))
         == CalculateEndTransform(libm, from, Straight(length))
  {
  }

  /** A turn ends on the circle of its radius about the turn's centre, which
      lies `radius` to the side of the entry point. */
  lemma TurnEndsOnItsCircle(libm: Libm, angle: real, radius: real)
    requires UnitAt(libm, -angle)
    ensures var offset := RotatePointAround(libm, Vec2(0.0, 0.0), Vec2(radius, 0.0), -angle);
            SquaredDistance(offset, Vec2(radius, 0.0)) == radius * radius
  {
    RotatePointAroundFacts(libm, Vec2(0.0, 0.0), Vec2(radius, 0.0), -angle);
  }

  // ---------------------------------------------------------------------
  // Tracks chained from the origin
  // ---------------------------------------------------------------------

  /** Where a placed segment ends. */
  function SegmentEnd(libm: Libm, segment: TrackSegment): BlockTransform
  {
    CalculateEndTransform(libm, segment.transform, segment.blockType)
  }

  /** Segment `i` begins where segment `i - 1` ends. */
  ghost predicate LinkedAt(libm: Libm, segments: seq<TrackSegment>, i: int)
    requires 0 < i < |segments|
  {
    segments[i].transform == SegmentEnd(libm, segments[i - 1])
  }

  /** The track starts at the origin, every segment begins where the previous
      one ends, and `end` is where the last one ends. */
  ghost predicate ChainedFromOrigin(libm: Libm, segments: seq<TrackSegment>, end: BlockTransform)
  {
    && (segments == [] ==> end == ORIGIN)
    && (segments != [] ==> segments[0].transform == ORIGIN && end == SegmentEnd(libm, segments[|segments| - 1]))
    && forall i {:trigger LinkedAt(libm, segments, i)} :: 0 < i < |segments| ==> LinkedAt(libm, segments, i)
  }

  /** The sum of the turn angles of `segments`. */
  function TotalTurn(segments: seq<TrackSegment>): real
  {
    if segments == [] then 0.0
    else TotalTurn(segments[..|segments| - 1]) + TurnAngle(segments[|segments| - 1].blockType)
  }

  /** The sum of the slope height changes of `segments`. */
  function TotalClimb(segments: seq<TrackSegment>): real
  {
    if segments == [] then 0.0
    else TotalClimb(segments[..|segments| - 1]) + HeightChange(segments[|segments| - 1].blockType)
  }

  /** On a chained track every stored rotation is the Y-rotation by the sum of
      the turn angles before it, and every height is the sum of the slope
      height changes before it. */
  lemma {:induction false} PosesAreRunningSums(libm: Libm, segments: seq<TrackSegment>, end: BlockTransform)
    requires ChainedFromOrigin(libm, segments, end)
    ensures end.yaw == TotalTurn(segments)
    ensures end.position.y == TotalClimb(segments)
    ensures forall i :: 0 <= i < |segments| ==>
              && segments[i].transform.yaw == TotalTurn(segments[..i])
              && segments[i].transform.position.y == TotalClimb(segments[..i])
  {
    if segments != [] {
      var n := |segments|;
      var prefix := segments[..n - 1];
      var mid := segments[n - 1].transform;
      if n > 1 {
        assert LinkedAt(libm, segments, n - 1);
      }
      assert ChainedFromOrigin(libm, prefix, mid) by {
        forall i | 0 < i < |prefix| ensures LinkedAt(libm, prefix, i) {
          assert LinkedAt(libm, segments, i);
        }
      }
      PosesAreRunningSums(libm, prefix, mid);
      forall i | 0 <= i < n
        ensures segments[i].transform.yaw == TotalTurn(segments[..i])
        ensures segments[i].transform.position.y == TotalClimb(segments[..i])
      {
        if i < n - 1 {
          assert prefix[..i] == segments[..i];
        } else {
          assert segments[..i] == prefix;
        }
      }
    }
  }

  // ---------------------------------------------------------------------
  // Selection policy
  // ---------------------------------------------------------------------

  /** The radius of a turn started at `position`: at least 10. */
  function TurnRadius(noise: Perlin, position: Vec3): (r: real)
    ensures r >= 10.0
  {
    var r := Abs(noise.Get2(position.y * 0.3, position.x * 0.3));
    r * 20.0 + 10.0
  }

  /** The noise value whose magnitude picks the next block type: it is keyed
      on the number of segments built so far. */
  function SelectorValue(noise: Perlin, segmentCount: nat): real
  {
    Abs(noise.Get2(segmentCount as real * 0.3, 0.0))
  }

  /** The next block for a cursor at `position` after `segmentCount`
      segments, with `turnSinceDown` radians turned since the last slope. */
  function SelectNextBlock(noise: Perlin, segmentCount: nat, position: Vec3, turnSinceDown: real): (r: BlockType)
    ensures turnSinceDown > 0.5 * PI ==> r.Slope? && r.length == 25.0 && r.heightChange <= -10.0
    ensures turnSinceDown <= 0.5 * PI ==>
              var v := SelectorValue(noise, segmentCount);
              && (v < 0.15 ==> r == Straight(10.0))
              && (0.15 <= v < 0.3 ==> r.Turn?)
              && (0.3 <= v < 0.55 ==> r == Bumpy(15.0, 0.4))
              && (0.55 <= v < 0.7 ==> r.BankedTurn?)
              && (0.7 <= v ==> r.Slope? && r.length == 15.0 && r.heightChange <= -10.0)
    ensures (r.Turn? || r.BankedTurn?) ==> r.angle >= 0.3 && r.radius >= 10.0
    ensures r.BankedTurn? ==> r.bankHeight == r.angle / PI * 4.0
  {
    if turnSinceDown > 0.5 * PI then
      Slope(25.0, -(Abs(noise.Get2(position.y * 0.3, position.x * 0.3)) * 10.0 + 10.0))
    else
      var v := Abs(noise.Get2(segmentCount as real * 0.3, 0.0));
      if v < 0.15 then
        Straight(10.0)
      else if v < 0.3 then
        var r := Abs(noise.Get2(position.x * 0.3, position.y * 0.3));
        var angle := PI * r + 0.3;
        Turn(angle, TurnRadius(noise, position))
      else if v < 0.55 then
        Bumpy(15.0, 0.4)
      else if v < 0.7 then
        var r := Abs(noise.Get2(position.x * 0.3, position.y * 0.3));
        var angle := PI * r + 0.3;
        BankedTurn(angle, TurnRadius(noise, position), angle / PI * 4.0)
      else
        Slope(15.0, -(Abs(noise.Get2(position.y * 0.3, position.x * 0.3)) * 10.0 + 10.0))
  }

  /** The turn accumulator after a block: turns add their absolute angle,
      slopes reset it, other blocks leave it alone. */
  function NextTurnSinceDown(turnSinceDown: real, blockType: BlockType): real
  {
    match blockType
    case Turn(angle, _) => turnSinceDown + Abs(angle)
    case BankedTurn(angle, _, _) => turnSinceDown + Abs(angle)
    case Slope(_, _) => 0.0
    case _ => turnSinceDown
  }

  /** The turn accumulator after building `segments` from an accumulator of 0. */
  function TurnSinceDown(segments: seq<TrackSegment>): real
  {
    if segments == [] then 0.0
    else NextTurnSinceDown(TurnSinceDown(segments[..|segments| - 1]), segments[|segments| - 1].blockType)
  }

  /** The number of turns since the last slope after one more block. */
  function NextTurnsSinceSlope(before: nat, blockType: BlockType): nat
  {
    match blockType
    case Slope(_, _) => 0
    case Turn(_, _) => before + 1
    case BankedTurn(_, _, _) => before + 1
    case _ => before
  }

  /** How many turns (flat or banked) follow the last slope of `segments`. */
  function TurnsSinceSlope(segments: seq<TrackSegment>): nat
  {
    if segments == [] then 0
    else NextTurnsSinceSlope(TurnsSinceSlope(segments[..|segments| - 1]), segments[|segments| - 1].blockType)
  }

  /** One block keeps "at most six turns, each worth 0.3 radians" when the
      block is a slope once the accumulator passes a quarter turn and every
      turn is at least 0.3 radians: six turns already pass a quarter turn. */
  lemma TurnRunStep(turnSinceDown: real, turns: nat, blockType: BlockType)
    requires turns <= 6 && turnSinceDown >= 0.3 * turns as real
    requires turnSinceDown > 0.5 * PI ==> blockType.Slope?
    requires (blockType.Turn? || blockType.BankedTurn?) ==> blockType.angle >= 0.3
    ensures NextTurnsSinceSlope(turns, blockType) <= 6
    ensures NextTurnSinceDown(turnSinceDown, blockType) >= 0.3 * NextTurnsSinceSlope(turns, blockType) as real
  {
  }

  /** Every segment after the first is the block the selection policy picks
      for the state the generator is in when it is appended. */
  ghost predicate SelectedBy(noise: Perlin, segments: seq<TrackSegment>)
  {
    forall i :: 1 <= i < |segments| ==>
      segments[i].blockType == SelectNextBlock(noise, i, segments[i].transform.position, TurnSinceDown(segments[..i]))
  }

  lemma SelectedByExtends(noise: Perlin, segments: seq<TrackSegment>, next: TrackSegment)
    requires SelectedBy(noise, segments)
    requires |segments| >= 1
    requires next.blockType == SelectNextBlock(noise, |segments|, next.transform.position, TurnSinceDown(segments))
    ensures SelectedBy(noise, segments + [next])
  {
    var s := segments + [next];
    forall i | 1 <= i < |s|
      ensures s[i].blockType == SelectNextBlock(noise, i, s[i].transform.position, TurnSinceDown(s[..i]))
    {
      if i < |segments| {
        assert s[..i] == segments[..i];
      } else {
        assert s[..i] == segments;
      }
    }
  }

  /** Selection never lets more than six turns follow a slope: each turn adds
      at least 0.3 radians to the accumulator, and once it passes a quarter
      turn the next block is a forced slope. */
  lemma {:induction false} TurnRunsAreShort(noise: Perlin, segments: seq<TrackSegment>)
    requires |segments| >= 1 && segments[0].blockType.Slope?
    requires SelectedBy(noise, segments)
    ensures TurnsSinceSlope(segments) <= 6
    ensures TurnSinceDown(segments) >= 0.3 * TurnsSinceSlope(segments) as real
  {
    var n := |segments|;
    if n > 1 {
      var prefix := segments[..n - 1];
      assert SelectedBy(noise, prefix) by {
        forall i | 1 <= i < |prefix|
          ensures prefix[i].blockType == SelectNextBlock(noise, i, prefix[i].transform.position, TurnSinceDown(prefix[..i]))
        {
          assert prefix[..i] == segments[..i];
        }
      }
      TurnRunsAreShort(noise, prefix);
      var last := segments[n - 1];
      assert last.blockType == SelectNextBlock(noise, n - 1, last.transform.position, TurnSinceDown(prefix));
      TurnRunStep(TurnSinceDown(prefix), TurnsSinceSlope(prefix), last.blockType);
    }
  }

  /** Between any two consecutive slopes, and after the last one, there are
      at most six turns. */
  lemma AllTurnRunsAreShort(noise: Perlin, segments: seq<TrackSegment>)
    requires |segments| >= 1 && segments[0].blockType.Slope?
    requires SelectedBy(noise, segments)
    ensures forall k :: 1 <= k <= |segments| ==> TurnsSinceSlope(segments[..k]) <= 6
  {
    forall k | 1 <= k <= |segments|
      ensures TurnsSinceSlope(segments[..k]) <= 6
    {
      var prefix := segments[..k];
      assert SelectedBy(noise, prefix) by {
        forall i | 1 <= i < |prefix|
          ensures prefix[i].blockType == SelectNextBlock(noise, i, prefix[i].transform.position, TurnSinceDown(prefix[..i]))
        {
          assert prefix[..i] == segments[..i];
        }
      }
      TurnRunsAreShort(noise, prefix);
    }
  }

  /** Ice where the noise at half the entry position is close to zero. */
  function RoadTypeAt(noise: Perlin, position: Vec3): (r: RoadType)
    ensures r == Ice <==> Abs(noise.Get3(position.x * 0.5, position.y * 0.5, position.z * 0.5)) < 0.1
  {
    if Abs(noise.Get3(position.x * 0.5, position.y * 0.5, position.z * 0.5)) < 0.1 then Ice else Asphalt
  }

  /** A ten-second gravity change where the noise at an offset copy of the
      entry position is large. */
  function ModifierAt(noise: Perlin, position: Vec3): (r: BallModifier)
    ensures r != None <==> Abs(noise.Get3(40.0 * PI + position.x, 40.0 * PI + position.y, 40.0 * PI + position.z)) > 0.7
    ensures r != None ==> r == GravityChange(4.0, 10)
  {
    if Abs(noise.Get3(40.0 * PI + position.x, 40.0 * PI + position.y, 40.0 * PI + position.z)) > 0.7 then
      GravityChange(4.0, 10)
    else
      None
  }

  /** Every segment after the first carries the road type and the modifier
      sampled at its own entry position. */
  ghost predicate SurfacedBy(noise: Perlin, segments: seq<TrackSegment>)
  {
    forall i :: 1 <= i < |segments| ==>
      && segments[i].roadType == RoadTypeAt(noise, segments[i].transform.position)
      && segments[i].modifier == ModifierAt(noise, segments[i].transform.position)
  }

  // ---------------------------------------------------------------------
  // The track under construction
  // ---------------------------------------------------------------------

  /** What a segment is, apart from where it is placed. */
  function Piece(segment: TrackSegment): (BlockType, RoadType, BallModifier)
  {
    (segment.blockType, segment.roadType, segment.modifier)
  }

  /** The pieces of `segments`, in order. */
  function Pieces(segments: seq<TrackSegment>): seq<(BlockType, RoadType, BallModifier)>
  {
    if segments == [] then [] else Pieces(segments[..|segments| - 1]) + [Piece(segments[|segments| - 1])]
  }

  /** Appending a segment appends its piece. */
  lemma PiecesAppend(segments: seq<TrackSegment>, segment: TrackSegment)
    ensures Pieces(segments + [segment]) == Pieces(segments) + [Piece(segment)]
  {
    assert (segments + [segment])[..|segments|] == segments;
  }

  /** Piece `k` of a track is what segment `k` is. */
  lemma {:induction false} PieceAt(segments: seq<TrackSegment>, k: nat)
    requires k < |segments|
    ensures |Pieces(segments)| == |segments|
    ensures Pieces(segments)[k] == Piece(segments[k])
  {
    var n := |segments|;
    if k < n - 1 {
      PieceAt(segments[..n - 1], k);
    } else if n > 1 {
      PieceAt(segments[..n - 1], 0);
    }
  }

  /** The pieces of the debug track, in order: all asphalt, with a gravity
      change on the third piece only. */
  const DEBUG_LAYOUT: seq<(BlockType, RoadType, BallModifier)> := [
    (Slope(10.0, -10.0), Asphalt, None),
    (Bumpy(10.0, 2.0), Asphalt, None),
    (Straight(10.0), Asphalt, GravityChange(10.0, 10)),
    (Straight(10.0), Asphalt, None),
    (Straight(10.0), Asphalt, None),
    (Straight(10.0), Asphalt, None),
    (Slope(10.0, -10.0), Asphalt, None),
    (Straight(10.0), Asphalt, None),
    (Straight(10.0), Asphalt, None),
    (Straight(10.0), Asphalt, None)]

  /** A track is laid out as `layout` exactly when, segment by segment, its
      pieces are the entries of `layout`. */
  lemma PiecesAre(segments: seq<TrackSegment>, layout: seq<(BlockType, RoadType, BallModifier)>)
    ensures (Pieces(segments) == layout)
              <==> (|segments| == |layout| && forall k :: 0 <= k < |segments| ==> Piece(segments[k]) == layout[k])
  {
    if segments != [] {
      PieceAt(segments, 0);
      forall k | 0 <= k < |segments| ensures Pieces(segments)[k] == Piece(segments[k]) {
        PieceAt(segments, k);
      }
    }
  }

  class Track {
    const noise: Perlin
    const libm: Libm
    var segments: seq<TrackSegment>
    var currentEnd: BlockTransform
    var turnSinceDown: real

    ghost predicate Valid()
      reads this
    {
      ChainedFromOrigin(libm, segments, currentEnd)
    }

    /** An empty track with the cursor at the origin. */
    constructor Empty(noise: Perlin, libm: Libm)
      ensures Valid()
      ensures this.noise == noise && this.libm == libm
      ensures segments == [] && currentEnd == ORIGIN && turnSinceDown == 0.0
    {
      this.noise := noise;
      this.libm := libm;
      segments := [];
      currentEnd := ORIGIN;
      turnSinceDown := 0.0;
    }

    /** Places a block at the cursor and moves the cursor to its end. */
    method AppendBlock(blockType: BlockType, roadType: RoadType, modifier: BallModifier)
      requires Valid()
      modifies this
      ensures Valid()
      ensures segments == old(segments) + [TrackSegment(blockType, old(currentEnd), roadType, modifier)]
      ensures currentEnd == CalculateEndTransform(libm, old(currentEnd), blockType)
      ensures turnSinceDown == old(turnSinceDown)
      ensures Pieces(segments) == Pieces(old(segments)) + [(blockType, roadType, modifier)]
    {
      PiecesAppend(segments, TrackSegment(blockType, currentEnd, roadType, modifier));
      var endTransform := CalculateEndTransform(libm, currentEnd, blockType);
      ghost var before := segments;
      segments := segments + [TrackSegment(blockType, currentEnd, roadType, modifier)];
      currentEnd := endTransform;
      forall i | 0 < i < |segments| ensures LinkedAt(libm, segments, i) {
        if i < |before| {
          assert LinkedAt(libm, before, i);
        }
      }
    }

    /** The fixed ten-piece debug layout, built with the seed-0 sampler. */
    static method DebugStraight(perlin: PerlinLib, libm: Libm) returns (track: Track)
      ensures fresh(track) && track.Valid()
      ensures track.noise == Perlin(perlin, 0) && track.libm == libm && track.turnSinceDown == 0.0
      ensures Pieces(track.segments) == DEBUG_LAYOUT
    {
      track := new Track.Empty(Perlin(perlin, 0), libm);
      track.AppendBlock(Slope(10.0, -10.0), Asphalt, None);
      track.AppendBlock(Bumpy(10.0, 2.0), Asphalt, None);
      track.AppendBlock(Straight(10.0), Asphalt, GravityChange(10.0, 10));
      track.AppendBlock(Straight(10.0), Asphalt, None);
      track.AppendBlock(Straight(10.0), Asphalt, None);
      track.AppendBlock(Straight(10.0), Asphalt, None);
      track.AppendBlock(Slope(10.0, -10.0), Asphalt, None);
      track.AppendBlock(Straight(10.0), Asphalt, None);
      track.AppendBlock(Straight(10.0), Asphalt, None);
      track.AppendBlock(Straight(10.0), Asphalt, None);
    }

    /** A descending slope followed by 100 blocks chosen by the selection
        policy from the noise of `seed`. */
    static method Generate(perlin: PerlinLib, libm: Libm, seed: nat, initialLength: real) returns (track: Track)
      ensures fresh(track) && track.Valid()
      ensures track.noise == Perlin(perlin, seed) && track.libm == libm
      ensures |track.segments| == 101
      ensures track.segments[0] == TrackSegment(Slope(initialLength, -3.0), ORIGIN, Asphalt, None)
      ensures SelectedBy(track.noise, track.segments)
      ensures SurfacedBy(track.noise, track.segments)
      ensures track.turnSinceDown == TurnSinceDown(track.segments)
      ensures forall k :: 1 <= k <= |track.segments| ==> TurnsSinceSlope(track.segments[..k]) <= 6
    {
      track := new Track.Empty(Perlin(perlin, seed), libm);
      track.AppendBlock(Slope(initialLength, -3.0), Asphalt, None);
      var step := 0;
      while step < 100
        invariant 0 <= step <= 100
        invariant track.Valid()
        invariant track.noise == Perlin(perlin, seed) && track.libm == libm
        invariant |track.segments| == step + 1
        invariant track.segments[0] == TrackSegment(Slope(initialLength, -3.0), ORIGIN, Asphalt, None)
        invariant SelectedBy(track.noise, track.segments)
        invariant SurfacedBy(track.noise, track.segments)
        invariant track.turnSinceDown == TurnSinceDown(track.segments)
      {
        var nextBlock := SelectNextBlock(track.noise, |track.segments|, track.currentEnd.position, track.turnSinceDown);
        ghost var before := track.segments;
        track.turnSinceDown := NextTurnSinceDown(track.turnSinceDown, nextBlock);
        var roadType := RoadTypeAt(track.noise, track.currentEnd.position);
        var modifier := ModifierAt(track.noise, track.currentEnd.position);
        ghost var next := TrackSegment(nextBlock, track.currentEnd, roadType, modifier);
        track.AppendBlock(nextBlock, roadType, modifier);
        SelectedByExtends(track.noise, before, next);
        assert track.segments[..|track.segments| - 1] == before;
        step := step + 1;
      }
      AllTurnRunsAreShort(track.noise, track.segments);
    }
  }
}
