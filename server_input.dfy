/**
 * How the server applies a client's input to that client's marble: each
 * held arrow key nudges the marble's linear velocity by `MOVE_SPEED` in the
 * horizontal plane.
 */
module ServerInput {
  import opened Maths
  import opened Protocol

  const MOVE_SPEED: real := 0.1

  /** The physics engine's velocity component of a marble. */
  class Velocity {
    var linvel: Vec3
    var angvel: Vec3

    constructor (linvel: Vec3, angvel: Vec3)
      ensures this.linvel == linvel && this.angvel == angvel
    {
      this.linvel := linvel;
      this.angvel := angvel;
    }
  }

  /** The linear velocity after the input, key by key in the order the
      server applies them: forward, back, left, right. */
  function Steered(linvel: Vec3, input: Inputs): Vec3
  {
    match input
    case DirectionInput(d) =>
      var afterForward := if d.forward then linvel.(x := linvel.x + MOVE_SPEED) else linvel;
      var afterBack := if d.back then afterForward.(x := afterForward.x - MOVE_SPEED) else afterForward;
      var afterLeft := if d.left then afterBack.(z := afterBack.z - MOVE_SPEED) else afterBack;
      if d.right then afterLeft.(z := afterLeft.z + MOVE_SPEED) else afterLeft
    case Spawn => linvel
    case None => linvel
  }

  /** Nudges the marble's velocity for one input. */
  method SharedMovementBehaviour(velocity: Velocity, input: Inputs)
    modifies velocity
    ensures velocity.linvel == Steered(old(velocity.linvel), input)
    ensures velocity.angvel == old(velocity.angvel)
  {
    match input {
      case DirectionInput(direction) =>
        if direction.forward {
          velocity.linvel := velocity.linvel.(x := velocity.linvel.x + MOVE_SPEED);
        }
        if direction.back {
          velocity.linvel := velocity.linvel.(x := velocity.linvel.x - MOVE_SPEED);
        }
        if direction.left {
          velocity.linvel := velocity.linvel.(z := velocity.linvel.z - MOVE_SPEED);
        }
        if direction.right {
          velocity.linvel := velocity.linvel.(z := velocity.linvel.z + MOVE_SPEED);
        }
      case _ =>
    }
  }

  /** `+1` when only the positive key is held, `-1` when only the negative
      one is, `0` otherwise. */
  function Axis(positive: bool, negative: bool): (a: int)
    ensures -1 <= a <= 1
    ensures a == 0 <==> positive == negative
  {
    (if positive then 1 else 0) - (if negative then 1 else 0)
  }

  /** The net effect of a direction: forward and back move `x` by opposite
      steps, right and left move `z` by opposite steps, `y` never changes. */
  lemma SteeredByAxes(linvel: Vec3, d: Direction)
    ensures Steered(linvel, DirectionInput(d))
              == Vec3(linvel.x + Axis(d.forward, d.back) as real * MOVE_SPEED,
                      linvel.y,
                      linvel.z + Axis(d.right, d.left) as real * MOVE_SPEED)
  {
  }

  /** Spawn and empty inputs leave the velocity alone, as does a direction
      with no key held. */
  lemma IdleInputsKeepVelocity(linvel: Vec3, input: Inputs)
    requires !input.DirectionInput? || !input.direction.IsSome()
    ensures Steered(linvel, input) == linvel
  {
    if input.DirectionInput? {
      IsSomeUnlessNoKey(input.direction);
    }
  }

  /** Opposite keys cancel: forward with back leaves `x` as it was, left
      with right leaves `z`; and no input ever changes the vertical
      velocity. */
  lemma OppositeKeysCancel(linvel: Vec3, input: Inputs)
    ensures Steered(linvel, input).y == linvel.y
    ensures input.DirectionInput? && input.direction.forward && input.direction.back ==> Steered(linvel, input).x == linvel.x
    ensures input.DirectionInput? && input.direction.left && input.direction.right ==> Steered(linvel, input).z == linvel.z
  {
    if input.DirectionInput? {
      SteeredByAxes(linvel, input.direction);
    }
  }

  /** One input changes each horizontal component by at most `MOVE_SPEED`. */
  lemma SteeringBounded(linvel: Vec3, input: Inputs)
    ensures Abs(Steered(linvel, input).x - linvel.x) <= MOVE_SPEED
    ensures Abs(Steered(linvel, input).z - linvel.z) <= MOVE_SPEED
  {
    if input.DirectionInput? {
      SteeredByAxes(linvel, input.direction);
    }
  }
}
