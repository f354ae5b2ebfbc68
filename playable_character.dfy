/**
 * The playable character's ground state and its pull back to its starting
 * x position. The rigidbody is reduced to its velocity and the list of
 * impulses applied to it; the transform to its position, which physics
 * moves outside this model.
 */
module Characters {
  import opened Geometry

  /** The object a collision is with: is it on the "Ground" layer, and the y of its position. */
  datatype Collider = Collider(onGroundLayer: bool, y: real)

  /**
   * The x velocity that steers a character at `x` back to `initialX`: the
   * offset scaled by `speed`. With a positive speed it points towards the
   * starting position, and is zero exactly there.
   */
  function SteeringVelocity(initialX: real, x: real, speed: real): (vx: real)
    ensures speed > 0.0 ==> (vx > 0.0 <==> x < initialX)
    ensures speed > 0.0 ==> (vx < 0.0 <==> x > initialX)
    ensures speed > 0.0 ==> (vx == 0.0 <==> x == initialX)
    ensures speed == 0.0 ==> vx == 0.0
  {
    var offset := initialX - x;
    if speed > 0.0 then
      ProductSign(offset, speed);
      offset * speed
    else
      offset * speed
  }

  /** With a positive factor `b`, `a * b` has the sign of `a`. */
  lemma ProductSign(a: real, b: real)
    requires b > 0.0
    ensures a * b > 0.0 <==> a > 0.0
    ensures a * b < 0.0 <==> a < 0.0
  {
    if a > 0.0 {
      assert a * b > 0.0;
    } else if a < 0.0 {
      assert (-a) * b > 0.0;
    } else {
      assert a * b == 0.0;
    }
  }

  class PlayableCharacter {
    var shouldResetPosition: bool
    var resetPositionSpeed: real
    var initialPosition: Vec3
    var grounded: bool
    /** `transform.position`. */
    var position: Vec3
    /** The rigidbody's velocity. */
    var velocity: Vec3
    /** Impulses applied to the rigidbody with `AddForce`, oldest first. */
    var impulses: seq<Vec3>

    /** A character with the inspector defaults, standing still at `position`. */
    constructor (position: Vec3)
      ensures shouldResetPosition && resetPositionSpeed == 0.5
      ensures initialPosition == Vec3(0.0, 0.0, 0.0) && !grounded
      ensures this.position == position && velocity == Vec3(0.0, 0.0, 0.0) && impulses == []
    {
      shouldResetPosition := true;
      resetPositionSpeed := 0.5;
      initialPosition := Vec3(0.0, 0.0, 0.0);
      grounded := false;
      this.position := position;
      velocity := Vec3(0.0, 0.0, 0.0);
      impulses := [];
    }

    /** Whether the character stands on the ground, as the last ground collision left it. */
    function IsGrounded(): (g: bool)
      reads this
      ensures g <==> grounded
    {
      grounded
    }

    /**
     * The velocity is what a position reset makes of `before`: when asked to
     * and grounded, the x velocity steers back towards the starting x and
     * the y and z velocity are `before`'s; otherwise it is `before` itself.
     */
    predicate SteeredFrom(before: Vec3)
      reads this
    {
      if shouldResetPosition && grounded
      then velocity == Vec3(SteeringVelocity(initialPosition.x, position.x, resetPositionSpeed), before.y, before.z)
      else velocity == before
    }

    method SetInitialPosition(p: Vec3)
      modifies this`initialPosition
      ensures initialPosition == p
    {
      initialPosition := p;
    }

    /**
     * When asked to and grounded, steers the x velocity back towards the
     * starting x; the y and z velocity are kept. Otherwise nothing changes.
     */
    method ResetPosition()
      modifies this`velocity
      ensures SteeredFrom(old(velocity))
    {
      if shouldResetPosition {
        if IsGrounded() {
          velocity := Vec3((initialPosition.x - position.x) * resetPositionSpeed, velocity.y, velocity.z);
        }
      }
    }

    /** The physics step: animator updates are not modelled, so it is `ResetPosition`. */
    method FixedUpdate()
      modifies this`velocity
      ensures SteeredFrom(old(velocity))
    {
      ResetPosition();
    }

    /** Touching something on the Ground layer that is not above the character grounds it. */
    method CollisionEnter(other: Collider)
      modifies this`grounded
      ensures other.onGroundLayer && other.y <= position.y ==> grounded
      ensures !(other.onGroundLayer && other.y <= position.y) ==> grounded == old(grounded)
    {
      if other.onGroundLayer {
        if other.y <= position.y {
          grounded := true;
        }
      }
    }

    /** Leaving anything on the Ground layer ungrounds the character; other exits change nothing. */
    method CollisionExit(other: Collider)
      modifies this`grounded
      ensures other.onGroundLayer ==> !grounded
      ensures !other.onGroundLayer ==> grounded == old(grounded)
    {
      if other.onGroundLayer {
        grounded := false;
      }
    }
  }
}
