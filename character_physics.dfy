/**
 * The PhysicsObject of Assets/Scripts/Character: the sweep-and-slide body with
 * a frozen switch and the triangle's double-jump steering offset. The rigid
 * body's position is the field `position`; the cast result, the engine's
 * vector length and normalisation, the pointer angle, gravity and the tick
 * length are parameters.
 */
module CharacterPhysics {

  import opened Geometry
  import opened SweepAndSlide

  /** doubleJumpReducer: the angle offset is divided by 100 times this. */
  const DoubleJumpReducer: real := 6.0

  /**
   * setDoubleJumpMovement for a pointer angle (degrees between the right
   * direction and the vector from the pointer to the body). At exactly 90
   * degrees only x is written, y keeps the value it had.
   */
  function DoubleJumpOffset(angle: real, previous: Vec2): (r: Vec2)
    ensures angle < 90.0 ==> r.x < 0.0 && r.y == r.x
    ensures angle > 90.0 ==> r.x > 0.0 && r.y == -r.x
    ensures angle == 90.0 ==> r.x == 0.0 && r.y == previous.y
  {
    if angle < 90.0 then
      Vec2(-((90.0 - angle) / (100.0 * DoubleJumpReducer)), -((90.0 - angle) / (100.0 * DoubleJumpReducer)))
    else if angle > 90.0 then
      Vec2((angle - 90.0) / (100.0 * DoubleJumpReducer), -((angle - 90.0) / (100.0 * DoubleJumpReducer)))
    else
      previous.(x := 0.0)
  }

  /**
   * The steering offset a tick uses: while the triangle is in a double jump it is
   * computed once, when it is still zero, and then kept; otherwise it is zero.
   */
  function Steering(state: string, inDoubleJump: bool, current: Vec2, angle: real): Vec2 {
    if state == "Triangle" && inDoubleJump then
      (if current.x == 0.0 && current.y == 0.0 then DoubleJumpOffset(angle, current) else current)
    else Zero
  }

  /**
   * Computed from zero, the steering offset never points upwards and has equal
   * horizontal and vertical size; its horizontal sign follows the pointer's side.
   */
  lemma SteeringFromZero(angle: real)
    ensures var r := DoubleJumpOffset(angle, Zero);
            r.y <= 0.0 && Abs(r.x) == Abs(r.y) &&
            (r.x < 0.0 <==> angle < 90.0) && (r.x > 0.0 <==> angle > 90.0)
  {
  }

  /** Once non-zero, the steering offset is frozen for the rest of the double jump. */
  lemma SteeringFrozenOnceSet(inDoubleJump: bool, current: Vec2, angle: real, otherAngle: real)
    requires current != Zero
    ensures Steering("Triangle", inDoubleJump, current, angle) == Steering("Triangle", inDoubleJump, current, otherAngle)
    ensures inDoubleJump ==> Steering("Triangle", true, current, angle) == current
    ensures !inDoubleJump ==> Steering("Triangle", false, current, angle) == Zero
  {
  }

  class PhysicsObject {
    var velocity: Vec2
    var targetVelocity: Vec2
    var groundNormal: Vec2
    var grounded: bool
    /** rb2d.position */
    var position: Vec2
    var gravityModifier: real
    var state: string
    var inDoubleJump: bool
    var doubleJumpMovement: Vec2
    var hitBufferList: seq<Contact>

    /** The field initialisers; the rigid body starts at `start`. */
    constructor (start: Vec2)
      ensures velocity == Zero && targetVelocity == Zero && groundNormal == Zero && !grounded
      ensures position == start && gravityModifier == 4.0 && state == "Circle"
      ensures !inDoubleJump && doubleJumpMovement == Zero && hitBufferList == []
    {
      velocity, targetVelocity, groundNormal := Zero, Zero, Zero;
      grounded := false;
      position := start;
      gravityModifier := 4.0;
      state := "Circle";
      inDoubleJump := false;
      doubleJumpMovement := Zero;
      hitBufferList := [];
    }

    method SetDoubleJumpMovement(angle: real)
      modifies this`doubleJumpMovement
      ensures doubleJumpMovement == DoubleJumpOffset(angle, old(doubleJumpMovement))
    {
      if angle < 90.0 {
        doubleJumpMovement := doubleJumpMovement.(x := -((90.0 - angle) / (100.0 * DoubleJumpReducer)));
        doubleJumpMovement := doubleJumpMovement.(y := -((90.0 - angle) / (100.0 * DoubleJumpReducer)));
      } else if angle > 90.0 {
        doubleJumpMovement := doubleJumpMovement.(x := (angle - 90.0) / (100.0 * DoubleJumpReducer));
        doubleJumpMovement := doubleJumpMovement.(y := -((angle - 90.0) / (100.0 * DoubleJumpReducer)));
      } else {
        doubleJumpMovement := doubleJumpMovement.(x := 0.0);
      }
    }

    /**
     * One sweep of a move: `magnitude` and `direction` are its length and its normalized direction,
     * `cast` is what rb2d.Cast reported. The double-jump offset is added afterwards
     * whatever the contacts were.
     */
    method Movement(magnitude: real, direction: Vec2, cast: seq<Contact>, yMovement: bool)
      requires |cast| <= MaxContacts
      modifies this`velocity, this`grounded, this`groundNormal, this`position, this`hitBufferList
      ensures var r := Pass(old(velocity), old(grounded), old(groundNormal), magnitude, cast, yMovement);
              velocity == r.velocity && grounded == r.grounded && groundNormal == r.groundNormal &&
              position == Add(Add(old(position), Scale(r.distance, direction)), doubleJumpMovement)
      ensures magnitude > MinMoveDistance ==> hitBufferList == cast
      ensures magnitude <= MinMoveDistance ==> hitBufferList == old(hitBufferList)
    {
      var distance := magnitude;
      var v, g, n := velocity, grounded, groundNormal;
      ghost var start := PassState(v, g, n, magnitude);
      if distance > MinMoveDistance {
        var hits: seq<Contact> := [];
        for i := 0 to |cast|
          invariant hits == cast[..i]
          modifies {}
        {
          hits := hits + [cast[i]];
        }
        assert hits == cast;
        assert cast[..0] == [];
        for i := 0 to |hits|
          invariant PassState(v, g, n, distance) == ProcessContacts(start, cast[..i], yMovement)
          modifies {}
        {
          ghost var before := PassState(v, g, n, distance);
          var currentNormal := hits[i].normal;
          if currentNormal.y > MinGroundNormalY {
            g := true;
            if yMovement {
              n := currentNormal;
              currentNormal := currentNormal.(x := 0.0);
            }
          }
          assert currentNormal == CorrectionNormal(cast[i], yMovement);
          var projection := Dot(v, currentNormal);
          if projection < 0.0 {
            v := Sub(v, Scale(projection, currentNormal));
          }
          assert v == Slide(before.velocity, currentNormal);
          var modifiedDistance := hits[i].distance - ShellRadius;
          distance := if modifiedDistance < distance then modifiedDistance else distance;
          assert PassState(v, g, n, distance) == StepContact(before, cast[i], yMovement);
          ProcessContactsSnoc(start, cast, i, yMovement);
        }
        assert cast[..|cast|] == cast;
        hitBufferList := hits;
      }
      assert PassState(v, g, n, distance) == Pass(old(velocity), old(grounded), old(groundNormal), magnitude, cast, yMovement);
      velocity, grounded, groundNormal := v, g, n;
      position := Add(Add(position, Scale(distance, direction)), doubleJumpMovement);
    }

    /**
     * The steering part of FixedUpdate, run right after grounded is reset: the
     * triangle in a double jump keeps its offset once set and computes it while
     * it is zero; in every other case the offset is cleared.
     */
    method UpdateSteering(angle: real)
      requires !grounded
      modifies this`doubleJumpMovement
      ensures doubleJumpMovement == Steering(state, inDoubleJump, old(doubleJumpMovement), angle)
    {
      if !grounded && state == "Triangle" {
        if inDoubleJump {
          if doubleJumpMovement.x == 0.0 && doubleJumpMovement.y == 0.0 {
            SetDoubleJumpMovement(angle);
          }
        } else {
          doubleJumpMovement := Zero;
        }
      } else {
        doubleJumpMovement := Zero;
      }
    }

    /**
     * One physics tick. When frozen nothing changes. Otherwise the velocity is
     * integrated (its x overwritten by the target), grounded is reset, the steering
     * offset is brought up to date and the x pass then the y pass run.
     */
    method FixedUpdate(frozen: bool, gravity: Vec2, dt: real, angle: real,
                       length: Vec2 -> real, normalized: Vec2 -> Vec2,
                       castX: seq<Contact>, castY: seq<Contact>)
      requires |castX| <= MaxContacts && |castY| <= MaxContacts
      modifies this`velocity, this`grounded, this`groundNormal, this`position, this`hitBufferList,
               this`doubleJumpMovement
      ensures frozen ==> velocity == old(velocity) && grounded == old(grounded) &&
                         groundNormal == old(groundNormal) && position == old(position) &&
                         doubleJumpMovement == old(doubleJumpMovement) && hitBufferList == old(hitBufferList)
      ensures !frozen ==>
                doubleJumpMovement == Steering(state, inDoubleJump, old(doubleJumpMovement), angle) &&
                var r := SweepTick(Integrate(old(velocity), targetVelocity, gravityModifier, gravity, dt),
                                   old(groundNormal), old(position), dt, doubleJumpMovement,
                                   length, normalized, castX, castY);
                velocity == r.velocity && grounded == r.grounded &&
                groundNormal == r.groundNormal && position == r.position
    {
      if frozen { return; }

      velocity := Add(velocity, Scale(gravityModifier * dt, gravity));
      velocity := velocity.(x := targetVelocity.x);

      grounded := false;

      UpdateSteering(angle);

      ghost var v1, p0, n0, offset := velocity, position, groundNormal, doubleJumpMovement;
      assert v1 == Integrate(old(velocity), targetVelocity, gravityModifier, gravity, dt);
      assert n0 == old(groundNormal) && p0 == old(position);
      assert offset == Steering(state, inDoubleJump, old(doubleJumpMovement), angle);

      var deltaPosition := Scale(dt, velocity);

      var xMove := Scale(deltaPosition.x, Tangent(groundNormal));
      Movement(length(xMove), normalized(xMove), castX, false);
      ghost var rx := Pass(v1, false, n0, length(xMove), castX, false);
      assert velocity == rx.velocity && grounded == rx.grounded && groundNormal == rx.groundNormal;
      ghost var p1 := position;
      assert p1 == Add(Add(p0, Scale(rx.distance, normalized(xMove))), offset);

      var yMove := Scale(deltaPosition.y, Up);
      Movement(length(yMove), normalized(yMove), castY, true);
      ghost var ry := Pass(rx.velocity, rx.grounded, rx.groundNormal, length(yMove), castY, true);
      assert position == Add(Add(p1, Scale(ry.distance, normalized(yMove))), offset);
      assert SweepTick(v1, n0, p0, dt, offset, length, normalized, castX, castY) ==
             TickResult(ry.velocity, ry.grounded, ry.groundNormal, position);
      assert velocity == ry.velocity;
    }
  }

}
