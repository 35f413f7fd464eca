/**
 * The older PhysicsObject of Assets/Scripts: the same sweep-and-slide body
 * without the frozen switch and without any extra offset, so the body moves
 * only by what the collision resolution allows.
 */
module LegacyPhysics {

  import opened Geometry
  import opened SweepAndSlide

  class PhysicsObject {
    var velocity: Vec2
    var targetVelocity: Vec2
    var grounded: bool
    var groundNormal: Vec2
    /** rb2d.position */
    var position: Vec2
    var gravityModifier: real
    var hitBufferList: seq<Contact>

    /** The field initialisers; the rigid body starts at `start`. */
    constructor (start: Vec2)
      ensures velocity == Zero && targetVelocity == Zero && groundNormal == Zero && !grounded
      ensures position == start && gravityModifier == 1.0 && hitBufferList == []
    {
      velocity, targetVelocity, groundNormal := Zero, Zero, Zero;
      grounded := false;
      position := start;
      gravityModifier := 1.0;
      hitBufferList := [];
    }

    /**
     * One sweep of a move: `magnitude` and `direction` are its length and its normalized direction,
     * `cast` is what rb2d.Cast reported. The body moves by exactly direction * distance.
     */
    method Movement(magnitude: real, direction: Vec2, cast: seq<Contact>, yMovement: bool)
      requires |cast| <= MaxContacts
      modifies this`velocity, this`grounded, this`groundNormal, this`position, this`hitBufferList
      ensures var r := Pass(old(velocity), old(grounded), old(groundNormal), magnitude, cast, yMovement);
              velocity == r.velocity && grounded == r.grounded && groundNormal == r.groundNormal &&
              position == Add(old(position), Scale(r.distance, direction))
      ensures magnitude > MinMoveDistance ==> hitBufferList == cast
      ensures magnitude <= MinMoveDistance ==> hitBufferList == old(hitBufferList)
    {
      var distance := magnitude;
      var v, g, n := velocity, grounded, groundNormal;
      ghost var start := PassState(v, g, n, magnitude);
      if distance > MinMoveDistance {
        var hits: seq<Contact> := [];
        for i := 0 to |cast|
          invariant hits == cast[..i]
          modifies {}
        {
          hits := hits + [cast[i]];
        }
        assert hits == cast;
        assert cast[..0] == [];
        for i := 0 to |hits|
          invariant PassState(v, g, n, distance) == ProcessContacts(start, cast[..i], yMovement)
          modifies {}
        {
          ghost var before := PassState(v, g, n, distance);
          var currentNormal := hits[i].normal;
          if currentNormal.y > MinGroundNormalY {
            g := true;
            if yMovement {
              n := currentNormal;
              currentNormal := currentNormal.(x := 0.0);
            }
          }
          assert currentNormal == CorrectionNormal(cast[i], yMovement);
          var projection := Dot(v, currentNormal);
          if projection < 0.0 {
            v := Sub(v, Scale(projection, currentNormal));
          }
          assert v == Slide(before.velocity, currentNormal);
          var modifiedDistance := hits[i].distance - ShellRadius;
          distance := if modifiedDistance < distance then modifiedDistance else distance;
          assert PassState(v, g, n, distance) == StepContact(before, cast[i], yMovement);
          ProcessContactsSnoc(start, cast, i, yMovement);
        }
        assert cast[..|cast|] == cast;
        hitBufferList := hits;
      }
      assert PassState(v, g, n, distance) == Pass(old(velocity), old(grounded), old(groundNormal), magnitude, cast, yMovement);
      velocity, grounded, groundNormal := v, g, n;
      position := Add(position, Scale(distance, direction));
    }

    /**
     * One physics tick: gravity, then velocity.x := targetVelocity.x, grounded reset,
     * the pass along the ground tangent and then the vertical pass.
     */
    method FixedUpdate(gravity: Vec2, dt: real, length: Vec2 -> real, normalized: Vec2 -> Vec2,
                       castX: seq<Contact>, castY: seq<Contact>)
      requires |castX| <= MaxContacts && |castY| <= MaxContacts
      modifies this`velocity, this`grounded, this`groundNormal, this`position, this`hitBufferList
      ensures var r := SweepTick(Integrate(old(velocity), targetVelocity, gravityModifier, gravity, dt),
                                 old(groundNormal), old(position), dt, Zero, length, normalized, castX, castY);
              velocity == r.velocity && grounded == r.grounded &&
              groundNormal == r.groundNormal && position == r.position
    {
      velocity := Add(velocity, Scale(gravityModifier * dt, gravity));
      velocity := velocity.(x := targetVelocity.x);

      grounded := false;

      var deltaPosition := Scale(dt, velocity);
      ghost var v1, p0, n0 := velocity, position, groundNormal;
      assert v1 == Integrate(old(velocity), targetVelocity, gravityModifier, gravity, dt);
      assert n0 == old(groundNormal) && p0 == old(position);

      var moveAlongGround := Tangent(groundNormal);
      var move := Scale(deltaPosition.x, moveAlongGround);
      ghost var xMove := move;
      Movement(length(move), normalized(move), castX, false);
      ghost var rx := Pass(v1, false, n0, length(xMove), castX, false);
      assert velocity == rx.velocity && grounded == rx.grounded && groundNormal == rx.groundNormal;
      ghost var p1 := position;
      assert p1 == Add(Add(p0, Scale(rx.distance, normalized(xMove))), Zero);

      move := Scale(deltaPosition.y, Up);
      Movement(length(move), normalized(move), castY, true);
      ghost var ry := Pass(rx.velocity, rx.grounded, rx.groundNormal, length(move), castY, true);
      assert position == Add(Add(p1, Scale(ry.distance, normalized(move))), Zero);
      assert SweepTick(v1, n0, p0, dt, Zero, length, normalized, castX, castY) ==
             TickResult(ry.velocity, ry.grounded, ry.groundNormal, position);
      assert velocity == ry.velocity;
    }
  }

  /**
   * Without an offset the body's displacement over a tick is the two clamped
   * travels along the two move directions, and a pass that was cast never
   * travels further than its request or up to any contact's shell.
   */
  lemma TickTravelBounded(velocity: Vec2, groundNormal: Vec2, position: Vec2, dt: real,
                          length: Vec2 -> real, normalized: Vec2 -> Vec2,
                          castX: seq<Contact>, castY: seq<Contact>)
    ensures var xMove := Scale(Scale(dt, velocity).x, Tangent(groundNormal));
            var yMove := Scale(Scale(dt, velocity).y, Up);
            var rx := Pass(velocity, false, groundNormal, length(xMove), castX, false);
            var ry := Pass(rx.velocity, rx.grounded, rx.groundNormal, length(yMove), castY, true);
            SweepTick(velocity, groundNormal, position, dt, Zero, length, normalized, castX, castY).position ==
              Add(Add(position, Scale(rx.distance, normalized(xMove))), Scale(ry.distance, normalized(yMove))) &&
            rx.distance <= length(xMove) && ry.distance <= length(yMove) &&
            (length(xMove) > MinMoveDistance ==>
               forall i :: 0 <= i < |castX| ==> rx.distance <= castX[i].distance - ShellRadius) &&
            (length(yMove) > MinMoveDistance ==>
               forall i :: 0 <= i < |castY| ==> ry.distance <= castY[i].distance - ShellRadius)
  {
    var xMove := Scale(Scale(dt, velocity).x, Tangent(groundNormal));
    var yMove := Scale(Scale(dt, velocity).y, Up);
    var rx := Pass(velocity, false, groundNormal, length(xMove), castX, false);
    TravelIsMinimum(PassState(velocity, false, groundNormal, length(xMove)), castX, false);
    TravelIsMinimum(PassState(rx.velocity, rx.grounded, rx.groundNormal, length(yMove)), castY, true);
  }

}
