/**
 * The PlayerController of Assets/Scripts: the attribute table with its lookup
 * fallback, the morph state machine (guard, ChangeState, frame-by-frame
 * animateState that commits the new shape), the jump rule, the two halves of
 * the respawn coroutine and the movement detection. Engine calls (animator,
 * lights, colliders, particles, sound) become recorded effects or are left
 * out; the three LevelSettings flags it reads and writes are fields here.
 */
module PlayerControl {

  import opened Options
  import opened Geometry

  /** A sprite reference; NoSprite stands for null. */
  datatype Sprite = NoSprite | Frame(id: nat)

  /** One entry of characterAttributes (its particle colour is not modelled). */
  datatype Attributes = Attributes(name: string, gravityModifier: real, maxSpeed: real,
                                   jumpTakeOffSpeed: real, sprite: Sprite)

  /** `new Attributes()`: every number zero, no sprite; its null name is written "". */
  const DefaultAttributes: Attributes := Attributes("", 0.0, 0.0, 0.0, NoSprite)

  /** The three character states; the code spells them as the strings ShapeName gives. */
  datatype Shape = Circle | Triangle | Rectangle

  function ShapeName(s: Shape): string {
    match s
    case Circle => "Circle"
    case Triangle => "Triangle"
    case Rectangle => "Rectangle"
  }

  /** A position change of more than this on one axis counts as moving. */
  const MovementThreshold: real := 0.1
  /** animationDuration: the whole morph animation takes this many seconds. */
  const AnimationDuration: real := 0.16
  const DoubleJumpFactor: real := 1.2
  /** A landing is only noticed after more than this many seconds in the air. */
  const LandingAirTime: real := 0.2

  /** The one-way notifications the controller sends to the engine. */
  datatype Effect =
    | JumpSquish      // Animator.Play("JumpSquish")
    | LandSquish      // Animator.Play("LandSquish")
    | LandingShake    // CameraShake.Play(.1, 18, 18)
    | MorphSound      // soundPlayer.PlayOneShot(morphSound)
    | DeathShake      // CameraShake.Play(.2, 10, 7)
    | DeathParticles  // playDeathParticles()

  // ---------------------------------------------------------------------------
  // Attribute lookup
  // ---------------------------------------------------------------------------

  predicate HasName(table: seq<Attributes>, name: string) {
    exists i :: 0 <= i < |table| && table[i].name == name
  }

  /** i is the first position of the table whose entry is called name. */
  predicate FirstNamed(table: seq<Attributes>, name: string, i: int) {
    0 <= i < |table| && table[i].name == name &&
    forall j :: 0 <= j < i ==> table[j].name != name
  }

  lemma FirstNamedUnique(table: seq<Attributes>, name: string, i: int, k: int)
    requires FirstNamed(table, name, i) && FirstNamed(table, name, k)
    ensures i == k
  {
  }

  /** The position of the first entry called name, if any. */
  function IndexOfName(table: seq<Attributes>, name: string): (r: Option<nat>)
    ensures r.Some? ==> FirstNamed(table, name, r.value)
    ensures r.None? <==> !HasName(table, name)
    decreases |table|
  {
    if |table| == 0 then None
    else if table[0].name == name then Some(0)
    else
      match IndexOfName(table[1..], name)
      case None =>
        assert forall i :: 1 <= i < |table| ==> table[i] == table[1..][i - 1];
        None
      case Some(k) =>
        assert forall j :: 1 <= j < k + 1 ==> table[j] == table[1..][j - 1];
        Some(k + 1)
  }

  /**
   * getAttributes(name): the first entry called name; failing that the first
   * entry called after the current state; failing that the default record.
   */
  function AttributesFor(table: seq<Attributes>, name: string, current: string): (a: Attributes)
    ensures HasName(table, name) ==> exists i :: FirstNamed(table, name, i) && a == table[i]
    ensures !HasName(table, name) && HasName(table, current) ==>
              exists i :: FirstNamed(table, current, i) && a == table[i]
    ensures !HasName(table, name) && !HasName(table, current) ==> a == DefaultAttributes
  {
    match IndexOfName(table, name)
    case Some(i) => table[i]
    case None =>
      match IndexOfName(table, current)
      case Some(j) => table[j]
      case None => DefaultAttributes
  }

  /** Whenever some entry carries the requested name, the lookup returns an entry of that name. */
  lemma AttributesForKnownName(table: seq<Attributes>, name: string, current: string)
    requires HasName(table, name)
    ensures AttributesFor(table, name, current).name == name
    ensures AttributesFor(table, name, current) in table
  {
  }

  // ---------------------------------------------------------------------------
  // Animation clips
  // ---------------------------------------------------------------------------

  function Reversed<T>(a: seq<T>): (r: seq<T>)
    ensures |r| == |a|
    ensures forall i :: 0 <= i < |a| ==> r[i] == a[|a| - 1 - i]
    decreases |a|
  {
    if |a| == 0 then [] else [a[|a| - 1]] + Reversed(a[..|a| - 1])
  }

  lemma ReversedTwice<T>(a: seq<T>)
    ensures Reversed(Reversed(a)) == a
  {
  }

  /**
   * The morph fields of the controller, compared before and after a frame:
   * state, newState, isChangingState, frameCounter, stateChangeTimer,
   * animationArray and the sprite shown.
   */
  type MorphFields = (Shape, Option<Shape>, bool, int, real, array<Sprite>, Sprite)

  /** The three sprite sheets under Resources/Morph; each is drawn from its first shape to its second. */
  datatype Clip = RectToCircle | RectToTriangle | TriangleToCircle

  function ClipFrom(c: Clip): Shape {
    match c
    case RectToCircle => Rectangle
    case RectToTriangle => Rectangle
    case TriangleToCircle => Triangle
  }

  function ClipTo(c: Clip): Shape {
    match c
    case RectToCircle => Circle
    case RectToTriangle => Triangle
    case TriangleToCircle => Circle
  }

  /**
   * The switch of ChangeState: which sheet is copied and whether it is played
   * backwards.
   */
  function MorphClip(state: Shape, newState: Shape): (Clip, bool) {
    match state
    case Circle => (if newState == Triangle then TriangleToCircle else RectToCircle, true)
    case Triangle => (if newState == Circle then TriangleToCircle else RectToTriangle, newState == Rectangle)
    case Rectangle => (if newState == Circle then RectToCircle else RectToTriangle, false)
  }

  /**
   * For every pair of different shapes the chosen sheet, in the chosen direction,
   * shows exactly the transition from the old shape to the new one.
   */
  lemma MorphClipPlaysTransition(state: Shape, newState: Shape)
    requires state != newState
    ensures var (c, reverse) := MorphClip(state, newState);
            (if reverse then ClipTo(c) else ClipFrom(c)) == state &&
            (if reverse then ClipFrom(c) else ClipTo(c)) == newState
  {
  }

  /**
   * assignAnimationArray: a new array of the sheet's length holding the sheet,
   * or the sheet reversed. The counter walks down from the end when reversing.
   */
  method AssignAnimationArray(a: seq<Sprite>, reverse: bool) returns (arr: array<Sprite>)
    ensures fresh(arr) && arr.Length == |a|
    ensures arr[..] == if reverse then Reversed(a) else a
  {
    arr := new Sprite[|a|];
    var counter := if reverse then |a| - 1 else 0;
    for k := 0 to |a|
      invariant counter == if reverse then |a| - 1 - k else k
      invariant reverse ==> forall j :: 0 <= j < k ==> arr[|a| - 1 - j] == a[j]
      invariant !reverse ==> forall j :: 0 <= j < k ==> arr[j] == a[j]
    {
      arr[counter] := a[k];
      counter := if reverse then counter - 1 else counter + 1;
    }
    if reverse {
      forall i | 0 <= i < |a|
        ensures arr[i] == Reversed(a)[i]
      {
        assert arr[|a| - 1 - (|a| - 1 - i)] == a[|a| - 1 - i];
      }
    }
  }

  // ---------------------------------------------------------------------------
  // Morph guard and frame stepping
  // ---------------------------------------------------------------------------

  /**
   * The shape handleMorphing starts morphing into for the keys 1, 2 and 3 pressed
   * this frame: the first key, in that order, whose shape differs from the current
   * one, and none while a morph is under way.
   */
  function MorphTarget(changing: bool, state: Shape, key1: bool, key2: bool, key3: bool): (r: Option<Shape>)
    ensures r.Some? ==> !changing && r.value != state
    ensures r == Some(Circle) ==> key1
    ensures r == Some(Triangle) ==> key2 && !(key1 && state != Circle)
    ensures r == Some(Rectangle) ==> key3 && !(key1 && state != Circle) && !(key2 && state != Triangle)
    ensures r.None? <==>
              changing || ((!key1 || state == Circle) && (!key2 || state == Triangle) && (!key3 || state == Rectangle))
  {
    if changing then None
    else if key1 && state != Circle then Some(Circle)
    else if key2 && state != Triangle then Some(Triangle)
    else if key3 && state != Rectangle then Some(Rectangle)
    else None
  }

  /** The morph commits when the frame just shown is the last one. */
  predicate CommitsAt(frame: int, length: int) {
    frame >= length - 1
  }

  /** frameCounter after a shown frame: the next one, or 1 after the commit reset to 0. */
  function FrameAfter(frame: int, length: int): int {
    if CommitsAt(frame, length) then 1 else frame + 1
  }

  /** The frames shown from `frame` on until the morph commits. */
  function FramesShown(frame: nat, length: nat): seq<nat>
    requires frame < length
    decreases length - frame
  {
    if CommitsAt(frame, length) then [frame]
    else [frame] + FramesShown(FrameAfter(frame, length), length)
  }

  /**
   * A morph started at frame 0 shows every frame of the array once, in order,
   * and commits on the last one.
   */
  lemma {:induction false} FramesShownInOrder(frame: nat, length: nat)
    requires frame < length
    ensures |FramesShown(frame, length)| == length - frame
    ensures forall i :: 0 <= i < length - frame ==> FramesShown(frame, length)[i] == frame + i
    decreases length - frame
  {
    if !CommitsAt(frame, length) {
      FramesShownInOrder(frame + 1, length);
    }
  }

  // ---------------------------------------------------------------------------
  // Jumping and movement detection
  // ---------------------------------------------------------------------------

  /** velocity.y after the jump button: take-off when grounded, 1.2 times it for a rising triangle. */
  function JumpVelocity(vy: real, grounded: bool, state: Shape, takeOff: real): real {
    if grounded then takeOff
    else if state == Triangle && vy > 0.0 then takeOff * DoubleJumpFactor
    else vy
  }

  /** velocity.y after n presses of the jump button in n airborne frames. */
  function AirJumps(n: nat, vy: real, state: Shape, takeOff: real): real {
    if n == 0 then vy else JumpVelocity(AirJumps(n - 1, vy, state, takeOff), false, state, takeOff)
  }

  /** No counter limits the triangle's double jump: every press in the air fires again. */
  lemma {:induction false} TriangleAirJumpsUnlimited(n: nat, vy: real, takeOff: real)
    requires n >= 1 && vy > 0.0 && takeOff > 0.0
    ensures AirJumps(n, vy, Triangle, takeOff) == DoubleJumpFactor * takeOff
  {
    if n > 1 {
      TriangleAirJumpsUnlimited(n - 1, vy, takeOff);
    }
  }

  /** The other shapes cannot jump in the air at all. */
  lemma {:induction false} NoAirJumpOtherwise(n: nat, vy: real, state: Shape, takeOff: real)
    requires state != Triangle || vy <= 0.0
    ensures AirJumps(n, vy, state, takeOff) == vy
  {
    if n > 0 {
      NoAirJumpOtherwise(n - 1, vy, state, takeOff);
    }
  }

  /**
   * testForMovement on one axis: moving iff the position changed by more than the
   * threshold since the last frame; the direction flag is only rewritten then.
   * `towardsLower` selects leftwards (true) or upwards (false).
   */
  function Detect(last: real, current: real, previous: bool, towardsLower: bool): (r: (bool, bool))
    ensures r.0 <==> (last - current > MovementThreshold || current - last > MovementThreshold)
    ensures !r.0 ==> r.1 == previous
    ensures r.0 ==> (r.1 <==> (if towardsLower then current < last else current > last))
  {
    var moving := Abs(last - current) > MovementThreshold;
    (moving, if moving then (if towardsLower then last > current else last < current) else previous)
  }

  /** The movement-detection fields: last seen coordinates, direction flags and moving flags. */
  datatype Tracker = Tracker(lastX: real, lastY: real, leftwards: bool, movingX: bool, upwards: bool, movingY: bool)

  /**
   * testForMovement: both axes are checked against the last seen coordinates,
   * which are then replaced by the current ones whether or not the player moved.
   */
  function Track(t: Tracker, current: Vec2): (r: Tracker)
    ensures r.lastX == current.x && r.lastY == current.y
    ensures (r.movingX, r.leftwards) == Detect(t.lastX, current.x, t.leftwards, true)
    ensures (r.movingY, r.upwards) == Detect(t.lastY, current.y, t.upwards, false)
  {
    var (movingX, leftwards) := Detect(t.lastX, current.x, t.leftwards, true);
    var (movingY, upwards) := Detect(t.lastY, current.y, t.upwards, false);
    Tracker(current.x, current.y, leftwards, movingX, upwards, movingY)
  }

  class PlayerController {
    const characterAttributes: seq<Attributes>
    const rectToCircle: seq<Sprite>
    const rectToTriangle: seq<Sprite>
    const triangleToCircle: seq<Sprite>

    var isDead: bool
    var isChangingState: bool
    var state: Shape
    /** None stands for the initial "". */
    var newState: Option<Shape>
    var groundedInLastFrame: bool
    var secondsNotGrounded: real
    /** lastX, lastY, leftwards, movingX, upwards and movingY. */
    var tracker: Tracker
    var maxSpeed: real
    var jumpTakeOffSpeed: real
    /** Fields of the PhysicsObject base class. */
    var gravityModifier: real
    var velocity: Vec2
    var targetVelocity: Vec2
    var grounded: bool
    /** transform.position */
    var position: Vec2
    /** The sprite of the texture object's renderer. */
    var sprite: Sprite
    var animationArray: array<Sprite>
    var frameCounter: int
    var stateChangeTimer: real
    /** LevelSettings.Instance.canMove, canJump and canMorph. */
    var canMove: bool
    var canJump: bool
    var canMorph: bool

    /** A running morph heads for another shape and its frame is in range. */
    predicate Valid()
      reads this
    {
      frameCounter >= 0 &&
      (isChangingState ==>
         newState.Some? && newState.value != state &&
         (animationArray.Length > 0 ==> frameCounter < animationArray.Length))
    }

    function ClipFrames(c: Clip): seq<Sprite> {
      match c
      case RectToCircle => rectToCircle
      case RectToTriangle => rectToTriangle
      case TriangleToCircle => triangleToCircle
    }

    /** The frames ChangeState puts into animationArray for a morph from state to newState. */
    function MorphFrames(state: Shape, newState: Shape): seq<Sprite> {
      var (c, reverse) := MorphClip(state, newState);
      if reverse then Reversed(ClipFrames(c)) else ClipFrames(c)
    }

    /** Field groups the contracts below compare before and after a call. */
    function Airtime(): (bool, real)
      reads this
    {
      (groundedInLastFrame, secondsNotGrounded)
    }

    function Morph(): MorphFields
      reads this
    {
      (state, newState, isChangingState, frameCounter, stateChangeTimer, animationArray, sprite)
    }

    function Speeds(): (real, real, real)
      reads this
    {
      (maxSpeed, jumpTakeOffSpeed, gravityModifier)
    }

    /**
     * The field initialisers followed by Awake: the attributes of the start shape
     * and the start position as the last seen position.
     */
    constructor (table: seq<Attributes>, r2c: seq<Sprite>, r2t: seq<Sprite>, t2c: seq<Sprite>,
                 start: Vec2, startSprite: Sprite, move: bool, jump: bool, morph: bool)
      ensures Valid()
      ensures characterAttributes == table && rectToCircle == r2c && rectToTriangle == r2t && triangleToCircle == t2c
      ensures !isDead && !isChangingState && state == Circle && newState == None
      ensures groundedInLastFrame && secondsNotGrounded == 0.0
      ensures tracker == Tracker(start.x, start.y, false, false, false, false)
      ensures var a := AttributesFor(table, "Circle", "Circle");
              maxSpeed == a.maxSpeed && jumpTakeOffSpeed == a.jumpTakeOffSpeed && gravityModifier == a.gravityModifier
      ensures velocity == Zero && targetVelocity == Zero && !grounded && position == start && sprite == startSprite
      ensures animationArray.Length == 0 && frameCounter == 0 && stateChangeTimer == 0.0
      ensures canMove == move && canJump == jump && canMorph == morph
    {
      characterAttributes := table;
      rectToCircle, rectToTriangle, triangleToCircle := r2c, r2t, t2c;
      isDead, isChangingState := false, false;
      state, newState := Circle, None;
      groundedInLastFrame, secondsNotGrounded := true, 0.0;
      tracker := Tracker(0.0, 0.0, false, false, false, false);
      gravityModifier := 1.0;
      velocity, targetVelocity, grounded, position := Zero, Zero, false, start;
      sprite := startSprite;
      animationArray := new Sprite[0];
      frameCounter, stateChangeTimer := 0, 0.0;
      canMove, canJump, canMorph := move, jump, morph;
      new;
      assert ShapeName(state) == "Circle";
      var a := GetAttributes(ShapeName(state));
      maxSpeed := a.maxSpeed;
      jumpTakeOffSpeed := a.jumpTakeOffSpeed;
      gravityModifier := a.gravityModifier;
      tracker := tracker.(lastX := position.x);
      tracker := tracker.(lastY := position.y);
    }

    /** getAttributes(stateName): two searches of the table, the second for the current state. */
    method GetAttributes(stateName: string) returns (a: Attributes)
      ensures a == AttributesFor(characterAttributes, stateName, ShapeName(state))
    {
      var t := characterAttributes;
      var current := ShapeName(state);
      var i := 0;
      while i < |t|
        invariant 0 <= i <= |t|
        invariant forall j :: 0 <= j < i ==> t[j].name != stateName
      {
        if t[i].name == stateName {
          assert FirstNamed(t, stateName, i);
          ghost var r := AttributesFor(t, stateName, current);
          ghost var k :| FirstNamed(t, stateName, k) && r == t[k];
          FirstNamedUnique(t, stateName, i, k);
          return t[i];
        }
        i := i + 1;
      }
      assert !HasName(t, stateName);
      a := DefaultAttributes;
      i := 0;
      while i < |t|
        invariant 0 <= i <= |t|
        invariant forall j :: 0 <= j < i ==> t[j].name != current
      {
        if t[i].name == current {
          a := t[i];
          assert FirstNamed(t, current, i);
          ghost var r := AttributesFor(t, stateName, current);
          ghost var k :| FirstNamed(t, current, k) && r == t[k];
          FirstNamedUnique(t, current, i, k);
          return;
        }
        i := i + 1;
      }
      assert !HasName(t, current);
    }

    /**
     * ChangeState for newState: the animation frames for the pair, the morph
     * sound, newState's speeds and gravity, frame 0 and the changing flag. The
     * committed shape stays until animateState reaches the last frame.
     */
    method ChangeState() returns (effects: seq<Effect>)
      requires Valid() && !isChangingState && newState.Some? && newState.value != state
      modifies this`animationArray, this`gravityModifier, this`maxSpeed, this`jumpTakeOffSpeed,
               this`frameCounter, this`isChangingState
      ensures Valid() && isChangingState && frameCounter == 0
      ensures state == old(state) && newState == old(newState)
      ensures animationArray[..] == MorphFrames(state, newState.value)
      ensures var a := AttributesFor(characterAttributes, ShapeName(newState.value), ShapeName(state));
              Speeds() == (a.maxSpeed, a.jumpTakeOffSpeed, a.gravityModifier)
      ensures effects == [MorphSound]
    {
      var (clip, reverse) := MorphClip(state, newState.value);
      animationArray := AssignAnimationArray(ClipFrames(clip), reverse);
      effects := [MorphSound];
      var a := GetAttributes(ShapeName(newState.value));
      gravityModifier := a.gravityModifier;
      maxSpeed := a.maxSpeed;
      jumpTakeOffSpeed := a.jumpTakeOffSpeed;
      frameCounter := 0;
      isChangingState := true;
    }

    /** handleMorphing with the keys 1, 2 and 3 pressed this frame. */
    method HandleMorphing(key1: bool, key2: bool, key3: bool) returns (effects: seq<Effect>)
      requires Valid()
      modifies this`animationArray, this`gravityModifier, this`maxSpeed, this`jumpTakeOffSpeed,
               this`frameCounter, this`isChangingState, this`newState
      ensures Valid()
      ensures var t := MorphTarget(old(isChangingState), old(state), key1, key2, key3);
              (t.None? ==> Morph() == old(Morph()) && Speeds() == old(Speeds()) && effects == []) &&
              (t.Some? ==>
                 state == old(state) && newState == t && isChangingState && frameCounter == 0 &&
                 animationArray[..] == MorphFrames(state, t.value) &&
                 (var a := AttributesFor(characterAttributes, ShapeName(t.value), ShapeName(state));
                  Speeds() == (a.maxSpeed, a.jumpTakeOffSpeed, a.gravityModifier)) &&
                 effects == [MorphSound])
    {
      effects := [];
      if key1 && !isChangingState && state != Circle {
        newState := Some(Circle);
        effects := ChangeState();
      }
      if key2 && !isChangingState && state != Triangle {
        newState := Some(Triangle);
        effects := ChangeState();
      }
      if key3 && !isChangingState && state != Rectangle {
        newState := Some(Rectangle);
        effects := ChangeState();
      }
    }

    /**
     * animateState for a frame of dt seconds. Once the accumulated time exceeds
     * the duration divided by the number of frames, the next frame is shown; on
     * the last one the new shape is committed. With no frames the threshold is
     * infinite and nothing is ever shown.
     */
    method AnimateState(dt: real)
      requires Valid() && isChangingState
      modifies this`stateChangeTimer, this`sprite, this`frameCounter, this`isChangingState, this`state
      ensures Valid()
      ensures var length := animationArray.Length;
              var stepped := length > 0 && old(stateChangeTimer) + dt > AnimationDuration / (length as real);
              (!stepped ==>
                 stateChangeTimer == old(stateChangeTimer) + dt && sprite == old(sprite) &&
                 frameCounter == old(frameCounter) && isChangingState && state == old(state)) &&
              (stepped ==>
                 stateChangeTimer == 0.0 && sprite == animationArray[old(frameCounter)] &&
                 frameCounter == FrameAfter(old(frameCounter), length) &&
                 isChangingState == !CommitsAt(old(frameCounter), length) &&
                 state == if CommitsAt(old(frameCounter), length) then newState.value else old(state))
    {
      stateChangeTimer := stateChangeTimer + dt;
      if animationArray.Length > 0 && stateChangeTimer > AnimationDuration / (animationArray.Length as real) {
        stateChangeTimer := 0.0;
        sprite := animationArray[frameCounter];
        if frameCounter >= animationArray.Length - 1 {
          stateChangeTimer := 0.0;
          frameCounter := 0;
          isChangingState := false;
          state := newState.value;
        }
        frameCounter := frameCounter + 1;
      }
    }

    /** testForMovement against the current position. */
    method TestForMovement(current: Vec2)
      modifies this`tracker
      ensures tracker == Track(old(tracker), current)
    {
      tracker := tracker.(movingX := false);
      var currX := current.x;
      if Abs(tracker.lastX - currX) > MovementThreshold {
        tracker := tracker.(movingX := true);
        tracker := tracker.(leftwards := tracker.lastX > currX);
      }
      tracker := tracker.(lastX := current.x);

      tracker := tracker.(movingY := false);
      var currY := current.y;
      if Abs(tracker.lastY - currY) > MovementThreshold {
        tracker := tracker.(movingY := true);
        tracker := tracker.(upwards := tracker.lastY < currY);
      }
      tracker := tracker.(lastY := current.y);
    }

    /**
     * The part of ComputeVelocity that runs while movement is allowed: the jump
     * rule and the landing check when jumping is allowed, then the horizontal
     * target velocity from the axis input.
     */
    method MoveAndJump(dt: real, inputX: real, jumpPressed: bool) returns (effects: seq<Effect>)
      modifies this`velocity, this`targetVelocity, this`groundedInLastFrame, this`secondsNotGrounded
      ensures velocity == if canJump && jumpPressed
                          then old(velocity).(y := JumpVelocity(old(velocity.y), grounded, state, jumpTakeOffSpeed))
                          else old(velocity)
      ensures targetVelocity == Vec2(maxSpeed * inputX, 0.0)
      ensures Airtime() == if canJump then (grounded, if grounded then 0.0 else old(secondsNotGrounded) + dt)
                           else old(Airtime())
      ensures var lands := canJump && !old(groundedInLastFrame) && grounded && old(secondsNotGrounded) > LandingAirTime;
              (JumpSquish in effects <==> canJump && jumpPressed && grounded) &&
              (LandSquish in effects <==> lands) &&
              (LandingShake in effects <==> lands && state == Rectangle) &&
              MorphSound !in effects && DeathShake !in effects && DeathParticles !in effects
    {
      effects := [];
      var moveX := inputX;
      if canJump {
        if jumpPressed {
          if grounded {
            effects := effects + [JumpSquish];
            velocity := velocity.(y := jumpTakeOffSpeed);
          } else if state == Triangle && velocity.y > 0.0 {
            velocity := velocity.(y := jumpTakeOffSpeed * DoubleJumpFactor);
          }
        }
        if !groundedInLastFrame && grounded && secondsNotGrounded > LandingAirTime {
          effects := effects + [LandSquish];
          if state == Rectangle {
            effects := effects + [LandingShake];
          }
        }
        groundedInLastFrame := grounded;
        secondsNotGrounded := if !grounded then secondsNotGrounded + dt else 0.0;
      }
      targetVelocity := Scale(maxSpeed, Vec2(moveX, 0.0));
    }

    /**
     * What handleMorphing does with no morph under way, from the morph fields
     * `before` and the speeds `speeds` with committed shape `from`, to `after`,
     * `frames` (the new animation array's contents) and `speedsAfter`, where
     * `played` says whether the morph sound was asked for: nothing changes
     * without a target, and with one the ChangeState for that target has
     * happened.
     */
    predicate MorphStarted(before: MorphFields, speeds: (real, real, real), from: Shape,
                           key1: bool, key2: bool, key3: bool,
                           after: MorphFields, frames: seq<Sprite>, speedsAfter: (real, real, real),
                           played: bool)
    {
      var t := MorphTarget(false, from, key1, key2, key3);
      var (state', newState', changing', frame', timer', _, sprite') := after;
      (t.None? ==> after == before && speedsAfter == speeds && !played) &&
      (t.Some? ==>
         state' == from && newState' == t && changing' && frame' == 0 &&
         timer' == before.4 && sprite' == before.6 &&
         frames == MorphFrames(from, t.value) &&
         (var a := AttributesFor(characterAttributes, ShapeName(t.value), ShapeName(from));
          speedsAfter == (a.maxSpeed, a.jumpTakeOffSpeed, a.gravityModifier)) &&
         played)
    }

    /**
     * The morph part of a living player's frame, from the morph fields `before`
     * (with `oldFrames` in the animation array) to `after` (with `frames`). A
     * running morph is animated: until the frame that commits only the
     * animation advances, and on that frame the new shape is committed and, when
     * morphing is allowed, the keys may start the next morph. With no morph
     * running, the keys may start one when morphing is allowed. `played` says
     * whether the morph sound was asked for.
     */
    predicate AnimatedAndMorphed(before: MorphFields, oldFrames: seq<Sprite>, speeds: (real, real, real),
                                 dt: real, key1: bool, key2: bool, key3: bool, morphAllowed: bool,
                                 after: MorphFields, frames: seq<Sprite>, speedsAfter: (real, real, real),
                                 played: bool)
    {
      var (oldState, oldNew, changing, frame, timer, arr, oldSprite) := before;
      var (state', newState', changing', frame', timer', arr', sprite') := after;
      var length := |oldFrames|;
      var stepped := length > 0 && timer + dt > AnimationDuration / (length as real);
      var commits := stepped && CommitsAt(frame, length);
      var shown := if stepped && 0 <= frame < length then oldFrames[frame] else oldSprite;
      if !changing then
        (!morphAllowed ==> after == before && speedsAfter == speeds && !played) &&
        (morphAllowed ==> MorphStarted(before, speeds, oldState, key1, key2, key3, after, frames, speedsAfter, played))
      else
        (!commits ==>
           !played && speedsAfter == speeds && arr' == arr && newState' == oldNew &&
           changing' && state' == oldState && sprite' == shown &&
           timer' == (if stepped then 0.0 else timer + dt) &&
           frame' == (if stepped then frame + 1 else frame)) &&
        (commits ==>
           oldNew.Some? && state' == oldNew.value && sprite' == shown && timer' == 0.0 &&
           (!morphAllowed ==>
              !played && speedsAfter == speeds && arr' == arr &&
              newState' == oldNew && !changing' && frame' == 1) &&
           (morphAllowed ==>
              MorphStarted((state', oldNew, false, 1, 0.0, arr, sprite'), speeds, state', key1, key2, key3,
                           after, frames, speedsAfter, played)))
    }

    /**
     * The end of ComputeVelocity for a living player: the running morph is
     * animated, then the morph keys are handled when morphing is allowed.
     */
    method AnimateAndMorph(dt: real, key1: bool, key2: bool, key3: bool) returns (effects: seq<Effect>)
      requires Valid()
      modifies this`animationArray, this`gravityModifier, this`maxSpeed, this`jumpTakeOffSpeed,
               this`frameCounter, this`isChangingState, this`newState, this`stateChangeTimer, this`sprite, this`state
      ensures Valid()
      ensures effects == [] || effects == [MorphSound]
      ensures effects == [MorphSound] ==> canMorph && isChangingState && frameCounter == 0
      ensures !old(isChangingState) && !canMorph ==> Morph() == old(Morph()) && Speeds() == old(Speeds())
      ensures AnimatedAndMorphed(old(Morph()), old(animationArray[..]), old(Speeds()), dt, key1, key2, key3, canMorph,
                                 Morph(), animationArray[..], Speeds(), MorphSound in effects)
    {
      if isChangingState {
        AnimateState(dt);
      }
      effects := [];
      if canMorph {
        effects := HandleMorphing(key1, key2, key3);
      }
    }

    /**
     * The part of ComputeVelocity for a living player: movement and jumping when
     * movement is allowed, then the morph animation and the morph keys.
     */
    method LivingFrame(dt: real, inputX: real, jumpPressed: bool, key1: bool, key2: bool, key3: bool)
      returns (effects: seq<Effect>)
      requires Valid()
      modifies this`velocity, this`targetVelocity, this`groundedInLastFrame, this`secondsNotGrounded,
               this`animationArray, this`gravityModifier, this`maxSpeed, this`jumpTakeOffSpeed,
               this`frameCounter, this`isChangingState, this`newState, this`stateChangeTimer, this`sprite, this`state
      ensures Valid()
      ensures var jumps := canMove && canJump && jumpPressed;
              velocity == if jumps then old(velocity).(y := JumpVelocity(old(velocity.y), grounded, old(state), old(jumpTakeOffSpeed)))
                          else old(velocity)
      ensures targetVelocity == if canMove then Vec2(old(maxSpeed) * inputX, 0.0) else old(targetVelocity)
      ensures var counts := canMove && canJump;
              Airtime() == if counts then (grounded, if grounded then 0.0 else old(secondsNotGrounded) + dt)
                           else old(Airtime())
      ensures var counts := canMove && canJump;
              var lands := counts && !old(groundedInLastFrame) && grounded && old(secondsNotGrounded) > LandingAirTime;
              (JumpSquish in effects <==> counts && jumpPressed && grounded) &&
              (LandSquish in effects <==> lands) &&
              (LandingShake in effects <==> lands && old(state) == Rectangle)
      ensures AnimatedAndMorphed(old(Morph()), old(animationArray[..]), old(Speeds()), dt, key1, key2, key3, canMorph,
                                 Morph(), animationArray[..], Speeds(), MorphSound in effects)
    {
      var moveEffects := [];
      if canMove {
        moveEffects := MoveAndJump(dt, inputX, jumpPressed);
      }
      assert MorphSound !in moveEffects;
      assert Morph() == old(Morph()) && animationArray[..] == old(animationArray[..]) && Speeds() == old(Speeds());
      var morphEffects := AnimateAndMorph(dt, key1, key2, key3);
      effects := moveEffects + morphEffects;
      assert (MorphSound in effects) == (MorphSound in morphEffects);
      assert (JumpSquish in effects) == (JumpSquish in moveEffects);
      assert (LandSquish in effects) == (LandSquish in moveEffects);
      assert (LandingShake in effects) == (LandingShake in moveEffects);
    }

    /**
     * ComputeVelocity for a frame of dt seconds with the horizontal axis input,
     * the jump button and the three morph keys. A dead player only has its
     * movement detection updated.
     */
    method ComputeVelocity(dt: real, inputX: real, jumpPressed: bool, current: Vec2,
                           key1: bool, key2: bool, key3: bool) returns (effects: seq<Effect>)
      requires Valid()
      modifies this`tracker, this`velocity, this`targetVelocity, this`groundedInLastFrame, this`secondsNotGrounded,
               this`animationArray, this`gravityModifier, this`maxSpeed, this`jumpTakeOffSpeed,
               this`frameCounter, this`isChangingState, this`newState, this`stateChangeTimer, this`sprite, this`state
      ensures Valid()
      ensures tracker == Track(old(tracker), current)
      ensures old(isDead) ==> effects == []
      ensures var jumps := !old(isDead) && old(canMove) && old(canJump) && jumpPressed;
              velocity == if jumps then old(velocity).(y := JumpVelocity(old(velocity.y), grounded, old(state), old(jumpTakeOffSpeed)))
                          else old(velocity)
      ensures targetVelocity == if !old(isDead) && old(canMove) then Vec2(old(maxSpeed) * inputX, 0.0) else old(targetVelocity)
      ensures var counts := !old(isDead) && old(canMove) && old(canJump);
              Airtime() == if counts then (grounded, if grounded then 0.0 else old(secondsNotGrounded) + dt)
                           else old(Airtime())
      ensures var counts := !old(isDead) && old(canMove) && old(canJump);
              var lands := counts && !old(groundedInLastFrame) && grounded && old(secondsNotGrounded) > LandingAirTime;
              (JumpSquish in effects <==> counts && jumpPressed && grounded) &&
              (LandSquish in effects <==> lands) &&
              (LandingShake in effects <==> lands && old(state) == Rectangle)
      ensures old(isDead) || (!old(isChangingState) && !old(canMorph)) ==>
                Morph() == old(Morph()) && Speeds() == old(Speeds())
      ensures !old(isDead) ==>
                AnimatedAndMorphed(old(Morph()), old(animationArray[..]), old(Speeds()), dt, key1, key2, key3, canMorph,
                                   Morph(), animationArray[..], Speeds(), MorphSound in effects)
    {
      TestForMovement(current);
      effects := [];
      if !isDead {
        effects := LivingFrame(dt, inputX, jumpPressed, key1, key2, key3);
      }
    }

    /** PhysicsObject.Update: the target velocity is reset before ComputeVelocity runs. */
    method Update(dt: real, inputX: real, jumpPressed: bool, current: Vec2,
                  key1: bool, key2: bool, key3: bool) returns (effects: seq<Effect>)
      requires Valid()
      modifies this`tracker, this`velocity, this`targetVelocity, this`groundedInLastFrame, this`secondsNotGrounded,
               this`animationArray, this`gravityModifier, this`maxSpeed, this`jumpTakeOffSpeed,
               this`frameCounter, this`isChangingState, this`newState, this`stateChangeTimer, this`sprite, this`state
      ensures Valid()
      ensures targetVelocity == if !old(isDead) && old(canMove) then Vec2(old(maxSpeed) * inputX, 0.0) else Zero
      ensures var jumps := !old(isDead) && old(canMove) && old(canJump) && jumpPressed;
              velocity == if jumps then old(velocity).(y := JumpVelocity(old(velocity.y), grounded, old(state), old(jumpTakeOffSpeed)))
                          else old(velocity)
      ensures old(isDead) ==> Morph() == old(Morph()) && Speeds() == old(Speeds()) && effects == []
    {
      targetVelocity := Zero;
      effects := ComputeVelocity(dt, inputX, jumpPressed, current, key1, key2, key3);
    }

    /**
     * The respawn coroutine up to its wait: dead, no gravity, no vertical speed,
     * all three settings flags cleared, the sprite hidden.
     */
    method RespawnBegin() returns (effects: seq<Effect>)
      requires Valid()
      modifies this`isDead, this`gravityModifier, this`velocity, this`canMove, this`canMorph, this`canJump,
               this`sprite
      ensures Valid()
      ensures isDead && !canMove && !canMorph && !canJump
      ensures gravityModifier == 0.0 && velocity == old(velocity).(y := 0.0) && sprite == NoSprite
      ensures effects == [DeathShake, DeathParticles]

    {
      isDead := true;
      gravityModifier := 0.0;
      velocity := velocity.(y := 0.0);
      canMove := false;
      canMorph := false;
      canJump := false;
      effects := [DeathShake];
      sprite := NoSprite;
      effects := effects + [DeathParticles];
    }

    /**
     * The respawn coroutine after its wait: back at the spawn point with the
     * current shape's gravity and sprite, alive, all three flags set again.
     */
    method RespawnFinish(playerSpawn: Vec2)
      requires Valid()
      modifies this`position, this`gravityModifier, this`sprite, this`isDead, this`canMove, this`canMorph,
               this`canJump
      ensures Valid()
      ensures position == playerSpawn && !isDead && canMove && canMorph && canJump
      ensures var a := AttributesFor(characterAttributes, ShapeName(state), ShapeName(state));
              gravityModifier == a.gravityModifier && sprite == a.sprite

    {
      position := playerSpawn;
      var a := GetAttributes(ShapeName(state));
      gravityModifier := a.gravityModifier;
      sprite := a.sprite;
      isDead := false;
      canMove := true;
      canMorph := true;
      canJump := true;
    }
  }

}
