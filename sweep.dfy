/**
 * The sweep-and-slide resolver shared by both PhysicsObject classes: what one
 * Movement call does with the contact list the shape cast returned, and what
 * one FixedUpdate does with its two passes. The classes in CharacterPhysics
 * and LegacyPhysics are proved to follow these definitions; the lemmas here
 * state what the resolver guarantees.
 */
module SweepAndSlide {

  import opened Geometry

  /** Capacity of hitBuffer: the cast reports at most this many contacts. */
  const MaxContacts: nat := 16

  const MinMoveDistance: real := 0.001
  const ShellRadius: real := 0.01
  const MinGroundNormalY: real := 0.65

  /** One entry of the cast result: the surface normal and the distance to it. */
  datatype Contact = Contact(normal: Vec2, distance: real)

  /** What a Movement call updates while it walks the contact list. */
  datatype PassState = PassState(velocity: Vec2, grounded: bool, groundNormal: Vec2, distance: real)

  /** What a whole physics tick leaves behind. */
  datatype TickResult = TickResult(velocity: Vec2, grounded: bool, groundNormal: Vec2, position: Vec2)

  predicate IsGround(c: Contact) {
    c.normal.y > MinGroundNormalY
  }

  /** The normal used for the velocity correction: a ground contact of the y pass has its x zeroed. */
  function CorrectionNormal(c: Contact, yPass: bool): (n: Vec2)
    ensures n.y == c.normal.y
    ensures !yPass || !IsGround(c) ==> n == c.normal
    ensures yPass && IsGround(c) ==> n.x == 0.0
  {
    if IsGround(c) && yPass then c.normal.(x := 0.0) else c.normal
  }

  /**
   * Removes from v its component along n when v points into the surface.
   * For a unit normal the corrected velocity no longer points into it.
   */
  function Slide(v: Vec2, n: Vec2): (r: Vec2)
    ensures Dot(v, n) >= 0.0 ==> r == v
    ensures Dot(v, n) < 0.0 && Dot(n, n) == 1.0 ==> Dot(r, n) == 0.0
    ensures n.x == 0.0 ==> r.x == v.x
  {
    var projection := Dot(v, n);
    if projection < 0.0 then
      var r := Sub(v, Scale(projection, n));
      assert Dot(r, n) == projection - projection * Dot(n, n) by {
        calc {
          Dot(r, n);
          (v.x - projection * n.x) * n.x + (v.y - projection * n.y) * n.y;
          v.x * n.x + v.y * n.y - projection * (n.x * n.x + n.y * n.y);
        }
      }
      r
    else v
  }

  /** One iteration of the contact loop of Movement. */
  function StepContact(s: PassState, c: Contact, yPass: bool): PassState {
    PassState(
      Slide(s.velocity, CorrectionNormal(c, yPass)),
      s.grounded || IsGround(c),
      if IsGround(c) && yPass then c.normal else s.groundNormal,
      Min(c.distance - ShellRadius, s.distance))
  }

  /** The contact loop of Movement over the contacts in the order the cast returned them. */
  function ProcessContacts(s: PassState, hits: seq<Contact>, yPass: bool): PassState
    decreases |hits|
  {
    if |hits| == 0 then s
    else StepContact(ProcessContacts(s, hits[..|hits| - 1], yPass), hits[|hits| - 1], yPass)
  }

  /** Processing one more contact of the list is one more StepContact. */
  lemma ProcessContactsSnoc(s: PassState, hits: seq<Contact>, i: nat, yPass: bool)
    requires i < |hits|
    ensures ProcessContacts(s, hits[..i + 1], yPass) == StepContact(ProcessContacts(s, hits[..i], yPass), hits[i], yPass)
  {
    assert hits[..i + 1][..i] == hits[..i];
  }

  /**
   * One Movement call: a request no longer than MinMoveDistance is not cast at all,
   * otherwise every contact is processed starting from the requested distance.
   */
  function Pass(velocity: Vec2, grounded: bool, groundNormal: Vec2, requested: real,
                cast: seq<Contact>, yPass: bool): PassState
  {
    var start := PassState(velocity, grounded, groundNormal, requested);
    if requested > MinMoveDistance then ProcessContacts(start, cast, yPass) else start
  }

  /** Gravity is added to the velocity, then its x is overwritten by the target velocity. */
  function Integrate(velocity: Vec2, targetVelocity: Vec2, gravityModifier: real, gravity: Vec2, dt: real): (r: Vec2)
    ensures r.x == targetVelocity.x
    ensures r.y == velocity.y + gravityModifier * gravity.y * dt
  {
    Add(velocity, Scale(gravityModifier * dt, gravity)).(x := targetVelocity.x)
  }

  /**
   * One FixedUpdate after the velocity has been integrated: grounded is reset,
   * the x pass moves along the tangent of the previous ground normal, the y pass
   * moves straight up or down, and `offset` (the double-jump steering, Zero in the
   * older class) is added after each pass without collision correction. Both moves
   * come from the velocity before either pass; `length` and `normalized` stand for
   * the engine's Vector2.magnitude and Vector2.normalized.
   */
  function SweepTick(velocity: Vec2, groundNormal: Vec2, position: Vec2, dt: real, offset: Vec2,
                     length: Vec2 -> real, normalized: Vec2 -> Vec2,
                     castX: seq<Contact>, castY: seq<Contact>): TickResult
  {
    var delta := Scale(dt, velocity);
    var xMove := Scale(delta.x, Tangent(groundNormal));
    var rx := Pass(velocity, false, groundNormal, length(xMove), castX, false);
    var afterX := Add(Add(position, Scale(rx.distance, normalized(xMove))), offset);
    var yMove := Scale(delta.y, Up);
    var ry := Pass(rx.velocity, rx.grounded, rx.groundNormal, length(yMove), castY, true);
    var afterY := Add(Add(afterX, Scale(ry.distance, normalized(yMove))), offset);
    TickResult(ry.velocity, ry.grounded, ry.groundNormal, afterY)
  }

  // ---------------------------------------------------------------------------
  // Properties of one pass
  // ---------------------------------------------------------------------------

  /**
   * The travel distance is the minimum of the request and of every contact's
   * distance less the shell radius: it never exceeds the request or any of those.
   */
  lemma {:induction false} TravelIsMinimum(s: PassState, hits: seq<Contact>, yPass: bool)
    ensures ProcessContacts(s, hits, yPass).distance <= s.distance
    ensures forall i :: 0 <= i < |hits| ==>
              ProcessContacts(s, hits, yPass).distance <= hits[i].distance - ShellRadius
    ensures ProcessContacts(s, hits, yPass).distance == s.distance ||
            exists i :: 0 <= i < |hits| && ProcessContacts(s, hits, yPass).distance == hits[i].distance - ShellRadius
    decreases |hits|
  {
    if |hits| > 0 {
      var n := |hits| - 1;
      TravelIsMinimum(s, hits[..n], yPass);
      var r := ProcessContacts(s, hits[..n], yPass);
      assert ProcessContacts(s, hits, yPass).distance == Min(hits[n].distance - ShellRadius, r.distance);
      forall i | 0 <= i < |hits|
        ensures ProcessContacts(s, hits, yPass).distance <= hits[i].distance - ShellRadius
      {
        if i < n { assert hits[..n][i] == hits[i]; }
      }
      if r.distance != s.distance && ProcessContacts(s, hits, yPass).distance == r.distance {
        var j :| 0 <= j < n && r.distance == hits[..n][j].distance - ShellRadius;
        assert hits[j] == hits[..n][j];
      }
    }
  }

  /** A contact right at the body yields a negative travel distance: the body backs off by the shell. */
  lemma TravelMayBeNegative()
    ensures Pass(Zero, false, Up, 1.0, [Contact(Up, 0.0)], true).distance == -ShellRadius
  {
    var hits := [Contact(Up, 0.0)];
    var start := PassState(Zero, false, Up, 1.0);
    assert hits[..0] == [];
    assert ProcessContacts(start, hits, true) == StepContact(start, hits[0], true);
  }

  /** A pass ends grounded exactly when it started grounded or one of its contacts is ground. */
  lemma {:induction false} GroundedIffGroundContact(s: PassState, hits: seq<Contact>, yPass: bool)
    ensures ProcessContacts(s, hits, yPass).grounded <==>
            s.grounded || exists i :: 0 <= i < |hits| && IsGround(hits[i])
    decreases |hits|
  {
    if |hits| > 0 {
      var n := |hits| - 1;
      GroundedIffGroundContact(s, hits[..n], yPass);
      if exists i :: 0 <= i < n && IsGround(hits[..n][i]) {
        var i :| 0 <= i < n && IsGround(hits[..n][i]);
        assert hits[i] == hits[..n][i];
      }
      if exists i :: 0 <= i < |hits| && IsGround(hits[i]) {
        var i :| 0 <= i < |hits| && IsGround(hits[i]);
        if i < n { assert hits[..n][i] == hits[i]; }
      }
    }
  }

  /**
   * Only the y pass replaces the ground normal, and then only by the normal of
   * one of its ground contacts.
   */
  lemma {:induction false} GroundNormalFromYPassOnly(s: PassState, hits: seq<Contact>, yPass: bool)
    ensures !yPass ==> ProcessContacts(s, hits, yPass).groundNormal == s.groundNormal
    ensures ProcessContacts(s, hits, yPass).groundNormal == s.groundNormal ||
            exists i :: 0 <= i < |hits| && IsGround(hits[i]) &&
                        ProcessContacts(s, hits, yPass).groundNormal == hits[i].normal
    decreases |hits|
  {
    if |hits| > 0 {
      var n := |hits| - 1;
      GroundNormalFromYPassOnly(s, hits[..n], yPass);
      var r := ProcessContacts(s, hits[..n], yPass);
      if r.groundNormal != s.groundNormal && ProcessContacts(s, hits, yPass).groundNormal == r.groundNormal {
        var i :| 0 <= i < n && IsGround(hits[..n][i]) && r.groundNormal == hits[..n][i].normal;
        assert hits[i] == hits[..n][i];
      }
    }
  }

  /**
   * When every contact of the y pass is ground, the pass never changes the
   * horizontal velocity: those contacts are corrected along (0, normal.y) only.
   */
  lemma {:induction false} GroundContactsKeepHorizontalVelocity(s: PassState, hits: seq<Contact>)
    requires forall i :: 0 <= i < |hits| ==> IsGround(hits[i])
    ensures ProcessContacts(s, hits, true).velocity.x == s.velocity.x
    decreases |hits|
  {
    if |hits| > 0 {
      var n := |hits| - 1;
      assert forall i :: 0 <= i < n ==> hits[..n][i] == hits[i];
      GroundContactsKeepHorizontalVelocity(s, hits[..n]);
    }
  }

  // ---------------------------------------------------------------------------
  // Properties of one tick
  // ---------------------------------------------------------------------------

  /**
   * After a tick the body is grounded exactly when a pass that was cast met a
   * ground contact: grounded is never carried over from the previous tick.
   */
  lemma TickGroundedIff(velocity: Vec2, groundNormal: Vec2, position: Vec2, dt: real, offset: Vec2,
                        length: Vec2 -> real, normalized: Vec2 -> Vec2,
                        castX: seq<Contact>, castY: seq<Contact>)
    ensures var xMove := Scale(Scale(dt, velocity).x, Tangent(groundNormal));
            var yMove := Scale(Scale(dt, velocity).y, Up);
            SweepTick(velocity, groundNormal, position, dt, offset, length, normalized, castX, castY).grounded <==>
              (length(xMove) > MinMoveDistance && exists i :: 0 <= i < |castX| && IsGround(castX[i])) ||
              (length(yMove) > MinMoveDistance && exists i :: 0 <= i < |castY| && IsGround(castY[i]))
  {
    var delta := Scale(dt, velocity);
    var xMove := Scale(delta.x, Tangent(groundNormal));
    var sx := PassState(velocity, false, groundNormal, length(xMove));
    var rx := Pass(velocity, false, groundNormal, length(xMove), castX, false);
    GroundedIffGroundContact(sx, castX, false);
    assert rx.grounded <==> length(xMove) > MinMoveDistance && exists i :: 0 <= i < |castX| && IsGround(castX[i]);
    var yMove := Scale(delta.y, Up);
    var sy := PassState(rx.velocity, rx.grounded, rx.groundNormal, length(yMove));
    var ry := Pass(rx.velocity, rx.grounded, rx.groundNormal, length(yMove), castY, true);
    GroundedIffGroundContact(sy, castY, true);
    assert ry.grounded <==> rx.grounded || (length(yMove) > MinMoveDistance && exists i :: 0 <= i < |castY| && IsGround(castY[i]));
    assert SweepTick(velocity, groundNormal, position, dt, offset, length, normalized, castX, castY).grounded == ry.grounded;
  }

  /**
   * The offset bypasses collision resolution: it changes nothing but the
   * position, which it moves by exactly twice its value.
   */
  lemma OffsetAddedTwice(velocity: Vec2, groundNormal: Vec2, position: Vec2, dt: real, offset: Vec2,
                         length: Vec2 -> real, normalized: Vec2 -> Vec2,
                         castX: seq<Contact>, castY: seq<Contact>)
    ensures var r := SweepTick(velocity, groundNormal, position, dt, offset, length, normalized, castX, castY);
            var plain := SweepTick(velocity, groundNormal, position, dt, Zero, length, normalized, castX, castY);
            r.velocity == plain.velocity && r.grounded == plain.grounded &&
            r.groundNormal == plain.groundNormal &&
            r.position == Add(plain.position, Scale(2.0, offset))
  {
  }

  /** The ground normal after a tick is the old one or the normal of a ground contact of the y pass. */
  lemma TickGroundNormal(velocity: Vec2, groundNormal: Vec2, position: Vec2, dt: real, offset: Vec2,
                         length: Vec2 -> real, normalized: Vec2 -> Vec2,
                         castX: seq<Contact>, castY: seq<Contact>)
    ensures var r := SweepTick(velocity, groundNormal, position, dt, offset, length, normalized, castX, castY);
            r.groundNormal == groundNormal ||
            exists i :: 0 <= i < |castY| && IsGround(castY[i]) && r.groundNormal == castY[i].normal
  {
    var delta := Scale(dt, velocity);
    var xMove := Scale(delta.x, Tangent(groundNormal));
    var rx := Pass(velocity, false, groundNormal, length(xMove), castX, false);
    GroundNormalFromYPassOnly(PassState(velocity, false, groundNormal, length(xMove)), castX, false);
    var yMove := Scale(delta.y, Up);
    GroundNormalFromYPassOnly(PassState(rx.velocity, rx.grounded, rx.groundNormal, length(yMove)), castY, true);
  }

  /**
   * A tick whose two moves are both no longer than the minimum move casts
   * nothing: whatever the contacts, the body keeps its velocity and ground
   * normal, moves by the full requests plus twice the offset, and is reported
   * airborne even when it rests on the ground.
   */
  lemma SlowTickIgnoresContacts(velocity: Vec2, groundNormal: Vec2, position: Vec2, dt: real, offset: Vec2,
                                length: Vec2 -> real, normalized: Vec2 -> Vec2,
                                castX: seq<Contact>, castY: seq<Contact>, otherX: seq<Contact>, otherY: seq<Contact>)
    requires length(Scale(Scale(dt, velocity).x, Tangent(groundNormal))) <= MinMoveDistance
    requires length(Scale(Scale(dt, velocity).y, Up)) <= MinMoveDistance
    ensures var xMove := Scale(Scale(dt, velocity).x, Tangent(groundNormal));
            var yMove := Scale(Scale(dt, velocity).y, Up);
            var r := SweepTick(velocity, groundNormal, position, dt, offset, length, normalized, castX, castY);
            r == SweepTick(velocity, groundNormal, position, dt, offset, length, normalized, otherX, otherY) &&
            !r.grounded && r.velocity == velocity && r.groundNormal == groundNormal &&
            r.position == Add(Add(Add(Add(position, Scale(length(xMove), normalized(xMove))), offset),
                                  Scale(length(yMove), normalized(yMove))), offset)
  {
  }

  /** Without contacts the tick keeps the integrated velocity exactly. */
  lemma NoContactsKeepVelocity(velocity: Vec2, groundNormal: Vec2, position: Vec2, dt: real, offset: Vec2,
                               length: Vec2 -> real, normalized: Vec2 -> Vec2)
    ensures SweepTick(velocity, groundNormal, position, dt, offset, length, normalized, [], []).velocity == velocity
  {
  }

}
