/**
 * The messages shared by client and server: the replicated player position,
 * with the linear interpolation used to smooth it between updates, and the
 * inputs a client sends.
 */
module Protocol {
  import opened Maths

  /** The replicated position of a player's marble. */
  datatype PlayerPosition = PlayerPosition(position: Vec3)

  /** `start * (1 - t) + other * t`, componentwise. */
  function Lerp(start: PlayerPosition, other: PlayerPosition, t: real): PlayerPosition
  {
    PlayerPosition(Add(Scale(start.position, 1.0 - t), Scale(other.position, t)))
  }

  /** Interpolation starts at `start` and ends at `other`. */
  lemma LerpEndpoints(start: PlayerPosition, other: PlayerPosition)
    ensures Lerp(start, other, 0.0) == start
    ensures Lerp(start, other, 1.0) == other
  {
  }

  /** Interpolating between equal positions stays put. */
  lemma LerpBetweenEqual(a: PlayerPosition, t: real)
    ensures Lerp(a, a, t) == a
  {
  }

  /** The difference between two interpolations is the difference of the
      parameters times the distance travelled: the interpolation moves at a
      constant rate along the segment. */
  lemma LerpIsAffine(start: PlayerPosition, other: PlayerPosition, s: real, t: real)
    ensures var p, q, d := Lerp(start, other, s).position, Lerp(start, other, t).position, Add(other.position, Scale(start.position, -1.0));
      q == Add(p, Scale(d, t - s))
  {
  }

  /** The arrow keys a client holds. */
  datatype Direction = Direction(forward: bool, back: bool, left: bool, right: bool)
  {
    /** At least one key is held. */
    predicate IsSome()
    {
      forward || back || left || right
    }
  }

  /** No key held. */
  const NO_DIRECTION: Direction := Direction(false, false, false, false)

  /** A direction is "some" exactly when it is not the direction with no key
      held. */
  lemma IsSomeUnlessNoKey(d: Direction)
    ensures d.IsSome() <==> d != NO_DIRECTION
  {
  }

  /** What a client sends each tick. */
  datatype Inputs = DirectionInput(direction: Direction) | Spawn | None
}
