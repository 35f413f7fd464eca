# tensquared core in Dafny

A model of the game logic of *tensquared*, a Unity 2D platformer. The player is a shape that
morphs between circle, triangle and rectangle. The model covers these parts:

- **Sweep-and-slide physics**, in both `PhysicsObject` classes:
  - the contact loop that grounds the body, replaces the ground normal, removes the into-surface velocity and clamps the travel;
  - the order of the x pass and the y pass within a physics tick;
  - the triangle's double-jump steering offset.
- **The player controller**:
  - the attribute lookup with its fallback;
  - the morph guard, `ChangeState`, the forward or reversed copy of the animation frames, and the frame stepping that commits the new shape;
  - the jump and double-jump rule and the landing check;
  - the two halves of the respawn coroutine;
  - movement detection.
- **The dialog system**: the first-in first-out queue of dialog names, the name table, the icon index, and the typewriter that shows the text one prefix at a time.
- **The `Dialog` record's text builder.**
- **The level timer**: its gate, its clamp, and its `DD:DD:DDD` display.
- **Spawn-point activation**: only one point is active, a point activates only to the right of the current spawn, a rising edge sets the spawn, and the holding arm's steps are followed by a reset.
- **The two level-settings stores.**
- **The four one-shot level triggers.**

Engine services become parameters of the operations. This covers:

- the shape cast's contact list, at most 16 `Contact`s;
- `Vector2.magnitude` and `normalized`;
- the pointer angle, the frame time, input keys and axes;
- the player's position, and the flags read from the settings singleton.

Engine side effects (animator, camera shake, sounds, scripted events and forwarded settings) become returned values of small notice datatypes.

Modules, by source file:

| module | file of the model | source |
|---|---|---|
| `Options`, `Geometry` | geometry.dfy | `Vector2` arithmetic over `real` |
| `SweepAndSlide` | sweep.dfy | the resolver both `PhysicsObject` classes share |
| `CharacterPhysics` | character_physics.dfy | Assets/Scripts/Character/PhysicsObject.cs |
| `LegacyPhysics` | legacy_physics.dfy | Assets/Scripts/PhysicsObject.cs |
| `PlayerControl` | player_controller.dfy | Assets/Scripts/PlayerController.cs |
| `DialogQueue` | dialog_system.dfy | Assets/Scripts/DialogSystem.cs |
| `DialogText` | dialog.dfy | Assets/Scripts/Level/Dialog/Dialog.cs |
| `LevelTiming` | level_timer.dfy | Assets/Scripts/Level/LevelTimer.cs |
| `SpawnPoints` | spawn_point.dfy | Assets/Scripts/Level/Elements/SpawnPoint.cs |
| `LevelSettingsStore` | level_settings.dfy | Assets/Scripts/Level/Controllers/LevelSettings.cs |
| `LegacyLevelSettings` | legacy_level_settings.dfy | Assets/Scripts/Level/LevelSettings.cs |
| `LevelTriggers` | triggers.dfy | the four scripts under Assets/Scripts/Level/Trigger |

Objects whose fields the game updates are classes, and their methods are proved against specification functions. For example:

- `Movement` follows `Pass`;
- `FixedUpdate` follows `SweepTick`, and `SweepTick`'s properties are lemmas;
- `SetText` follows `JoinLines`, which has a split round trip;
- `ConvertToTimerFormat` follows `FormatTimer`, which has a shape lemma and a read-back round trip.

## Model

| member | source | states |
|---|---|---|
| SweepAndSlide.CorrectionNormal | Assets/Scripts/Character/PhysicsObject.cs:163-169 | The correction normal keeps the contact's y. Only a ground contact met by the y pass has its x zeroed; every other contact is used as reported. |
| SweepAndSlide.Slide | Assets/Scripts/Character/PhysicsObject.cs:171-173 | The velocity is unchanged unless it points into the surface. For a unit normal, the corrected velocity is orthogonal to the normal. A normal with zero x leaves the horizontal velocity alone. |
| SweepAndSlide.ProcessContactsSnoc | Assets/Scripts/Character/PhysicsObject.cs:159-178 | Processing the contact list one entry further is one more iteration of the loop body. |
| SweepAndSlide.Integrate | Assets/Scripts/Character/PhysicsObject.cs:58-59 | After integration, velocity.x is the target velocity's x and velocity.y has gained gravity * modifier * dt. |
| SweepAndSlide.TravelIsMinimum | Assets/Scripts/Character/PhysicsObject.cs:175-176 | The travel never exceeds the request or any contact distance minus the shell radius. It equals the request or one of those, so it is their minimum. |
| SweepAndSlide.TravelMayBeNegative | Assets/Scripts/Character/PhysicsObject.cs:175-176 | A contact at distance 0 gives travel -shellRadius: the clamp can move the body backwards. |
| SweepAndSlide.GroundedIffGroundContact | Assets/Scripts/Character/PhysicsObject.cs:163-164 | A pass ends grounded iff it started grounded or one of its contacts has normal.y > 0.65. |
| SweepAndSlide.GroundNormalFromYPassOnly | Assets/Scripts/Character/PhysicsObject.cs:165-166 | The x pass never changes the ground normal. The y pass leaves it alone or replaces it with a ground contact's normal. |
| SweepAndSlide.GroundContactsKeepHorizontalVelocity | Assets/Scripts/Character/PhysicsObject.cs:165-173 | When every contact of the y pass is ground, the pass leaves velocity.x unchanged. |
| SweepAndSlide.SlowTickIgnoresContacts | Assets/Scripts/Character/PhysicsObject.cs:148-184 | When both moves of a tick are at most minMoveDistance, the contacts make no difference at all. The body keeps its velocity and ground normal, moves by the full requests plus twice the offset, and ends airborne even when it rests on the ground. |
| SweepAndSlide.TickGroundedIff | Assets/Scripts/Character/PhysicsObject.cs:61-92 | After a tick the body is grounded iff a pass that was cast met a ground contact. Grounded is never carried over from the previous tick. |
| SweepAndSlide.OffsetAddedTwice | Assets/Scripts/Character/PhysicsObject.cs:183 | The double-jump offset bypasses collision. It changes neither velocity nor grounding nor the ground normal, and it moves the body by exactly twice its value per tick, because both passes add it. |
| SweepAndSlide.TickGroundNormal | Assets/Scripts/Character/PhysicsObject.cs:165-166 | After a tick, the ground normal is the previous one or the normal of a ground contact of the y pass. |
| SweepAndSlide.NoContactsKeepVelocity | Assets/Scripts/Character/PhysicsObject.cs:159-178 | With no contacts, a tick keeps the integrated velocity exactly. |
| CharacterPhysics.DoubleJumpOffset | Assets/Scripts/Character/PhysicsObject.cs:103-120 | Below 90 degrees x = y < 0. Above 90 degrees x > 0 and y = -x. At 90 degrees x = 0 and y keeps its previous value. |
| CharacterPhysics.SteeringFromZero | Assets/Scripts/Character/PhysicsObject.cs:103-120 | From zero, the offset never points up and has Abs(x) = Abs(y). Its x is negative iff the angle is below 90 and positive iff it is above. |
| CharacterPhysics.SteeringFrozenOnceSet | Assets/Scripts/Character/PhysicsObject.cs:66-68 | Once non-zero, the offset no longer depends on the angle. It is kept during a double jump and cleared outside one. |
| CharacterPhysics.PhysicsObject.constructor | Assets/Scripts/Character/PhysicsObject.cs:10-24 | The field initialisers: gravity modifier 4, state "Circle", zero vectors, no double jump, an empty contact list. |
| CharacterPhysics.PhysicsObject.SetDoubleJumpMovement | Assets/Scripts/Character/PhysicsObject.cs:96-120 | The field becomes DoubleJumpOffset of the angle and its previous value. |
| CharacterPhysics.PhysicsObject.Movement | Assets/Scripts/Character/PhysicsObject.cs:148-186 | Velocity, grounded and ground normal become the result of Pass over the cast contacts. The position moves by normalized * travel and then by the offset. The contact list is replaced only when the cast runs. |
| CharacterPhysics.PhysicsObject.UpdateSteering | Assets/Scripts/Character/PhysicsObject.cs:64-85 | The offset becomes Steering: while the triangle is in a double jump it is computed when zero and kept otherwise; in every other case it is cleared. |
| CharacterPhysics.PhysicsObject.FixedUpdate | Assets/Scripts/Character/PhysicsObject.cs:53-94 | A frozen tick changes nothing. Otherwise the offset is updated and the new state is SweepTick from the integrated velocity: the x pass along the ground tangent, then the y pass. |
| LegacyPhysics.PhysicsObject.constructor | Assets/Scripts/PhysicsObject.cs:12-27 | The field initialisers: gravity modifier 1, zero vectors, not grounded, an empty contact list. |
| LegacyPhysics.PhysicsObject.Movement | Assets/Scripts/PhysicsObject.cs:81-128 | Velocity, grounded and ground normal become Pass over the cast contacts. The position moves by exactly normalized * travel. |
| LegacyPhysics.PhysicsObject.FixedUpdate | Assets/Scripts/PhysicsObject.cs:58-79 | The new state is SweepTick with a zero offset: integrate, overwrite velocity.x, reset grounded, the tangent pass, then the vertical pass. |
| LegacyPhysics.TickTravelBounded | Assets/Scripts/PhysicsObject.cs:119-126 | A tick moves the body by the two travels along the two move directions and by nothing else. Each travel is at most its request, and a pass that was cast stops short of every contact by the shell radius. |
| PlayerControl.FirstNamedUnique | Assets/Scripts/PlayerController.cs:101-105 | There is only one first position of a name in the attribute table. |
| PlayerControl.IndexOfName | Assets/Scripts/PlayerController.cs:101-105 | The search returns the first entry with the name. It returns None iff no entry has that name. |
| PlayerControl.AttributesFor | Assets/Scripts/PlayerController.cs:98-117 | The lookup returns the first entry named as requested. Failing that, it returns the first entry named after the current state, and failing both, the zeroed default record. |
| PlayerControl.AttributesForKnownName | Assets/Scripts/PlayerController.cs:100-105 | When the requested name is in the table, the result is a table entry carrying that name. |
| PlayerControl.Reversed | Assets/Scripts/PlayerController.cs:409-414 | Position i of the reversal holds position length-1-i of the input. |
| PlayerControl.ReversedTwice | Assets/Scripts/PlayerController.cs:409-414 | Reversing twice gives the frames back. |
| PlayerControl.MorphClipPlaysTransition | Assets/Scripts/PlayerController.cs:359-379 | For every pair of different shapes, the sheet the switch picks, in the direction it picks, is drawn from the old shape to the new one. |
| PlayerControl.AssignAnimationArray | Assets/Scripts/PlayerController.cs:404-416 | The result is a fresh array of the sheet's length holding the sheet, or the sheet reversed. |
| PlayerControl.MorphTarget | Assets/Scripts/PlayerController.cs:310-347 | No morph starts while one is running. Otherwise the target is the first pressed key, in the order 1, 2, 3, whose shape differs from the current one. None means no such key. |
| PlayerControl.FramesShownInOrder | Assets/Scripts/PlayerController.cs:446-460 | A morph started at frame 0 shows every frame index once, in order, and commits on the last one. |
| PlayerControl.TriangleAirJumpsUnlimited | Assets/Scripts/PlayerController.cs:184-195 | Any number n >= 1 of airborne presses by a rising triangle leaves velocity.y at 1.2 * take-off. No counter limits the double jump. |
| PlayerControl.NoAirJumpOtherwise | Assets/Scripts/PlayerController.cs:184-195 | Airborne presses by any other shape, or by a triangle that is not rising, leave velocity.y unchanged. |
| PlayerControl.Detect | Assets/Scripts/PlayerController.cs:477-482 | An axis is moving iff the coordinate changed by more than 0.1. The direction flag is rewritten only then, and then holds the actual direction. |
| PlayerControl.Track | Assets/Scripts/PlayerController.cs:476-492 | Both axes are detected against the last seen coordinates, which always become the current ones. |
| PlayerControl.PlayerController.constructor | Assets/Scripts/PlayerController.cs:127-152 | Awake applies the start shape's attributes and records the start position as last seen. The initialisers give a living circle, no morph, grounded last frame. |
| PlayerControl.PlayerController.GetAttributes | Assets/Scripts/PlayerController.cs:98-117 | The two loop searches return AttributesFor the name, with the current state as fallback. |
| PlayerControl.PlayerController.ChangeState | Assets/Scripts/PlayerController.cs:356-400 | The animation holds the pair's frames; newState's speeds and gravity apply; frame 0; changing. The morph sound plays. The committed state is unchanged. |
| PlayerControl.PlayerController.HandleMorphing | Assets/Scripts/PlayerController.cs:307-349 | Without a MorphTarget, nothing of the morph or the speeds changes. With one, ChangeState happens exactly once, for that target. |
| PlayerControl.PlayerController.AnimateState | Assets/Scripts/PlayerController.cs:425-464 | Below the threshold only the timer grows. Past it, frame frameCounter is shown (always in bounds) and the counter advances. On the last frame, newState is committed and the morph ends. |
| PlayerControl.PlayerController.TestForMovement | Assets/Scripts/PlayerController.cs:473-494 | The tracking fields become Track of their old values and the current position. |
| PlayerControl.PlayerController.MoveAndJump | Assets/Scripts/PlayerController.cs:176-219 | When jumping is allowed: the jump rule, the landing squish (and a shake for the rectangle) after more than 0.2 s airborne, and the air time. The target velocity is maxSpeed * input. |
| PlayerControl.PlayerController.AnimateAndMorph | Assets/Scripts/PlayerController.cs:240-248 | AnimatedAndMorphed: a running morph advances as AnimateState states, and before its last frame no key starts a new one. On its last frame the new shape is committed, and when morphing is allowed the keys may start the next morph in the same frame, as HandleMorphing states. With no morph running, the keys start one only when morphing is allowed. A started morph sets the old and new shape, the changing flag, frame 0, the new shape's frames and speeds, plays the morph sound, and leaves the change timer and the sprite as they were. |
| PlayerControl.PlayerController.LivingFrame | Assets/Scripts/PlayerController.cs:173-250 | For a living player: the jump rule, target velocity, air time and landing effects when movement is allowed, and the morph part AnimatedAndMorphed; the morph sound is the only effect that part adds. |
| PlayerControl.PlayerController.ComputeVelocity | Assets/Scripts/PlayerController.cs:163-252 | Movement detection always runs. A dead player gets no jump, target-velocity, landing or morph change. Otherwise the canMove/canJump/canMorph gates select the parts, and the morph fields end as AnimatedAndMorphed states. |
| PlayerControl.PlayerController.Update | Assets/Scripts/Character/PhysicsObject.cs:45-48 | The target velocity is reset before ComputeVelocity, so it stays zero unless movement was computed. |
| PlayerControl.PlayerController.RespawnBegin | Assets/Scripts/PlayerController.cs:256-279 | The player is dead, with no gravity and no vertical speed. All three flags are cleared, the sprite is hidden, and the death shake and particles play. |
| PlayerControl.PlayerController.RespawnFinish | Assets/Scripts/PlayerController.cs:281-297 | The player is at the spawn, with the current shape's gravity and sprite, alive, and all three flags are set. |
| DialogQueue.IconIndex | Assets/Scripts/DialogSystem.cs:118-135 | The index is always below 9. A listed name maps to its own position; any other name maps to 0 (neutral). |
| DialogQueue.IconIndexInOrder | Assets/Scripts/DialogSystem.cs:120-128 | The nine names map to 0..8 in their listed order. |
| DialogQueue.DialogFor | Assets/Scripts/DialogSystem.cs:146-169 | Exactly the eight level-1 names are known. Each gives a non-empty text, an audio key equal to the name, and a listed icon. |
| DialogQueue.Typed | Assets/Scripts/DialogSystem.cs:207-211 | The typewriter shows as many texts as the text has characters, the k-th being the prefix of length k+1. |
| DialogQueue.TypedGrowsByOne | Assets/Scripts/DialogSystem.cs:207-208 | Each shown text extends the previous one by exactly one character. |
| DialogQueue.DialogSystem.constructor | Assets/Scripts/DialogSystem.cs:15-24 | An empty queue and a hidden box. |
| DialogQueue.DialogSystem.LoadDialog | Assets/Scripts/DialogSystem.cs:81-84 | The name joins the back of the queue. |
| DialogQueue.DialogSystem.SetDialogue | Assets/Scripts/DialogSystem.cs:99-112 | Over a visible box the audio is stopped, but the running PlayDialog is not (the stop is handed a fresh enumerator). Text, audio path and icon index are stored. The new PlayDialog runs at once up to its first wait: the box is visible and empty, and the wait is 0.15 s over a visible box, else 0.5 s. |
| DialogQueue.DialogSystem.LoadDialogSettings | Assets/Scripts/DialogSystem.cs:97-172 | The front is always removed. A known name loads its table entry and opens the box, visible and empty. An unknown name changes nothing else and plays nothing. |
| DialogQueue.DialogSystem.Update | Assets/Scripts/DialogSystem.cs:86-90 | Exactly one name is dequeued, and only when no box is visible and the queue is non-empty. A known name then loads its table entry and leaves the box visible and empty; an unknown one changes nothing else. Otherwise nothing changes, the icon, box and shown text included. |
| DialogQueue.DialogSystem.LoadThenUpdate | Assets/Scripts/DialogSystem.cs:81-90 | First in, first out. A name loaded while a box is visible waits at the back and the box is untouched. With no box visible, the front is taken, which is the new name only when nothing was waiting; a known front opens the box, an unknown one leaves it hidden; the names behind keep their order. |
| DialogQueue.DialogSystem.UpdateTwice | Assets/Scripts/DialogSystem.cs:86-111 | Two frames with the box hidden and a known name in front: the first frame opens that dialog, so the second takes nothing and the next name keeps waiting. |
| DialogQueue.DialogSystem.PlayDialogOpen | Assets/Scripts/DialogSystem.cs:186-199 | The box becomes visible and empty. The first wait is 0.15 s when a box was already visible, else 0.5 s. |
| DialogQueue.DialogSystem.PlayDialogType | Assets/Scripts/DialogSystem.cs:202-211 | The voice plays and the shown texts are Typed(text). The loop ends with currentText == text (left alone for an empty text). |
| DialogQueue.DialogSystem.PlayDialogClose | Assets/Scripts/DialogSystem.cs:213-219 | The box is hidden only here, at the end. |
| DialogText.JoinLinesSnoc | Assets/Scripts/Level/Dialog/Dialog.cs:58-64 | Appending a line adds one "\n" and that line at the end; no newline is added after the last part. |
| DialogText.JoinLinesLength | Assets/Scripts/Level/Dialog/Dialog.cs:57-67 | A text of k >= 1 lines is as long as its lines together plus k-1. |
| DialogText.SplitJoinLines | Assets/Scripts/Level/Dialog/Dialog.cs:57-65 | When no line contains "\n", splitting the joined text at its line breaks gives the lines back. |
| DialogText.NoLinesGiveEmptyText | Assets/Scripts/Level/Dialog/Dialog.cs:57-67 | Zero lines give "" of length 0. |
| DialogText.Dialog.constructor | Assets/Scripts/Level/Dialog/Dialog.cs:30-38 | Only the level is set. Text and icon are "", the lengths are 0, isEvil is false. |
| DialogText.Dialog.SetText | Assets/Scripts/Level/Dialog/Dialog.cs:50-69 | The text becomes JoinLines(parts), whatever it was before, so a repeat call is idempotent, and textLength is its length. Nothing else changes. |
| LevelTiming.PadLeft | Assets/Scripts/Level/LevelTimer.cs:49 | Padding reaches the width (or keeps a longer string), ends with the original, and fills the front with the pad character. |
| LevelTiming.Insert | Assets/Scripts/Level/LevelTimer.cs:51-52 | string.Insert: the result keeps the first i characters, then holds the inserted text, then the rest of the original, so it is longer by the inserted text. |
| LevelTiming.DecimalDigits | Assets/Scripts/Level/LevelTimer.cs:47 | int.ToString gives digits only, and reading them back gives the number. |
| LevelTiming.DecimalLength | Assets/Scripts/Level/LevelTimer.cs:47 | A number below 10^k has at most k digits. |
| LevelTiming.LeadingZeros | Assets/Scripts/Level/LevelTimer.cs:49 | Zero padding keeps the value of a digit string. |
| LevelTiming.ColonsRemoved | Assets/Scripts/Level/LevelTimer.cs:51-52 | The two inserts put colons at 2 and 5, and removing those characters gives the seven digits back. |
| LevelTiming.TimerShape | Assets/Scripts/Level/LevelTimer.cs:45-52 | For n < 10^7 ms the display has 9 characters, ':' at 2 and 5, and digits elsewhere. |
| LevelTiming.TimerRoundTrip | Assets/Scripts/Level/LevelTimer.cs:45-52 | For n < 10^7 ms, removing the colons leaves seven digits whose value is n. |
| LevelTiming.TimerStartsAtZero | Assets/Scripts/Level/LevelTimer.cs:12 | 0 ms displays as "00:00:000", the initial display string. |
| LevelTiming.ClampAsWritten | Assets/Scripts/Level/LevelTimer.cs:37 | The clamp as written caps at 9599999 seconds and lets every smaller value through. |
| LevelTiming.DecimalTenMillion | Assets/Scripts/Level/LevelTimer.cs:47 | 10000000 prints as "10000000". |
| LevelTiming.WrittenClampOverflowsDisplay | Assets/Scripts/Level/LevelTimer.cs:37 | Under the clamp as written, 10000 s passes unclamped and displays as "10:00:0000": ten characters, colons misplaced. |
| LevelTiming.Clamp | Assets/Scripts/Level/LevelTimer.cs:36-37 | The intended clamp caps at 9599999 ms (95:99:999) and lets every smaller value through. |
| LevelTiming.ClampFitsDisplay | Assets/Scripts/Level/LevelTimer.cs:36-37 | Under the intended clamp, every timer value displays in exactly nine characters. |
| LevelTiming.LevelTimer.constructor | Assets/Scripts/Level/LevelTimer.cs:9-27 | The timer is active iff a stored unlocked-level count exceeds this level's id. It is not locked, starts at 0, and shows "00:00:000". |
| LevelTiming.LevelTimer.ConvertToTimerFormat | Assets/Scripts/Level/LevelTimer.cs:43-58 | Returns FormatTimer of the timer and caches it in currentTimerString. |
| LevelTiming.LevelTimer.Update | Assets/Scripts/Level/LevelTimer.cs:29-41 | When inactive or locked, nothing changes. Otherwise the timer grows by Time.fixedDeltaTime once per rendered frame (real time only at 1/fixedDeltaTime frames per second), is clamped as written (ClampAsWritten, 9599999 s) and redisplayed. It never decreases and stays at most 9599999 s. |
| LevelTiming.LevelTimer.SaveTimer | Assets/Scripts/Level/LevelTimer.cs:61-73 | When inactive, nothing happens. Otherwise the timer is locked and its display string is stored for the level. |
| LevelTiming.LevelTimer.SaveThenUpdate | Assets/Scripts/Level/LevelTimer.cs:63-65 | After a save of an active timer, an Update leaves the timer value where it was. |
| SpawnPoints.SpawnPoint.constructor | Assets/Scripts/Level/Elements/SpawnPoint.cs:60-95 | Awake saves the arm position and both sorting orders. The point starts inactive with its message hidden and its arm closed; the texture stays the prefab's sprite. |
| SpawnPoints.SpawnPoint.Update | Assets/Scripts/Level/Elements/SpawnPoint.cs:97-128 | The player spawn is set (with the sound) exactly on a rising edge of isActivated. Visuals follow only when the point was inactive last frame. activeInLastFrame ends equal to isActivated. |
| SpawnPoints.SpawnPoint.OnTriggerEnter2D | Assets/Scripts/Level/Elements/SpawnPoint.cs:130-151 | It fires iff the point is inactive and lies strictly right of the current spawn. It then activates, and every other point in the list is inactive, so at most one is active. Otherwise no point changes. |
| SpawnPoints.SpawnPoint.MoveOutHoldingArm | Assets/Scripts/Level/Elements/SpawnPoint.cs:177-217 | Stepping alone leaves the arm 0.76 off (50 steps out, 12 back), and the reset puts it back where Awake found it with both sorting orders restored. |
| LevelSettingsStore.SetSwitch | Assets/Scripts/Level/Controllers/LevelSettings.cs:111-145 | A known id changes exactly its own switch; an unknown id changes nothing. |
| LevelSettingsStore.SetThenGetSwitch | Assets/Scripts/Level/Controllers/LevelSettings.cs:111-141 | Setting a known switch and reading it back by name gives the value set. Every other switch reads as before. |
| LevelSettingsStore.UnknownSwitchReadsFalse | Assets/Scripts/Level/Controllers/LevelSettings.cs:193-227 | A name outside the seven reads false. |
| LevelSettingsStore.LevelSettings.constructor | Assets/Scripts/Level/Controllers/LevelSettings.cs:33-53 | The serialized defaults: level 1, every switch on, no ground colliders. |
| LevelSettingsStore.LevelSettings.Start | Assets/Scripts/Level/Controllers/LevelSettings.cs:65-93 | Both spawns become the player's position. Colliders are enabled iff enableGroundColliders. |
| LevelSettingsStore.LevelSettings.SetSwitchSetting | Assets/Scripts/Level/Controllers/LevelSettings.cs:105-149 | The switches become SetSwitch. A known id is forwarded to the player manager and then reads back through getBool. |
| LevelSettingsStore.LevelSettings.SetVectorSetting | Assets/Scripts/Level/Controllers/LevelSettings.cs:151-173 | Only the named spawn changes, and getVector2 of that name returns it. An unknown name changes nothing. |
| LevelSettingsStore.LevelSettings.GetInt | Assets/Scripts/Level/Controllers/LevelSettings.cs:175-191 | Only "levelID" is known; anything else reads 0. |
| LevelSettingsStore.LevelSettings.GetBool | Assets/Scripts/Level/Controllers/LevelSettings.cs:193-227 | Each of the seven known names reads its own flag. A true result only ever comes from one of them. |
| LevelSettingsStore.LevelSettings.GetVector2 | Assets/Scripts/Level/Controllers/LevelSettings.cs:229-248 | The two spawns by name; the zero vector otherwise. |
| LegacyLevelSettings.KeyOf | Assets/Scripts/Level/LevelSettings.cs:65-94 | The switch's cases: a name selects the key whose name it is, and None exactly when no key has that name. |
| LegacyLevelSettings.SetSwitch | Assets/Scripts/Level/LevelSettings.cs:63-98 | The named switch takes the value and every other switch keeps its own. An unknown name changes nothing. |
| LegacyLevelSettings.LevelSettings.constructor | Assets/Scripts/Level/LevelSettings.cs:17-34 | Every switch is on; the spawns and the collider flag are as placed. |
| LegacyLevelSettings.LevelSettings.Start | Assets/Scripts/Level/LevelSettings.cs:38-61 | worldSpawn == playerSpawn == the player's position. Colliders are enabled iff enableGroundColliders. |
| LegacyLevelSettings.LevelSettings.SetSwitchSetting | Assets/Scripts/Level/LevelSettings.cs:63-98 | The switches become SetSwitch. The movement switches are forwarded to the player controller, the morph switches to the player manager, and unknown names nowhere. |
| LegacyLevelSettings.LevelSettings.SetVectorSetting | Assets/Scripts/Level/LevelSettings.cs:100-112 | Only "playerSpawn" changes anything. "worldSpawn" and every other name leave both spawns as they were. |
| LevelTriggers.EventOf | Assets/Scripts/Level/Trigger/Level1/LVL1_HideJumpTooltip.cs:19 | The event of each script: level 1 "hide_jump_tooltip", level 3 "safe_laser_turrets", level 3 "like_the_melody", level 4 "am_i_untrustworthy". |
| LevelTriggers.Enter | Assets/Scripts/Level/Trigger/Level3/LVL3_SafeLaserTurrets.cs:15-22 | An entry fires iff the latch is open and the tag is "Player", and then fires the script's event. The latch closes exactly on a Player entry and stays closed. |
| LevelTriggers.FiresAtMostOnce | Assets/Scripts/Level/Trigger/Level3/LVL3_SafeLaserTurrets.cs:17-20 | Over any series of entries, an open trigger fires its event exactly once if some entry is tagged "Player", and never otherwise. A closed one never fires. |
| LevelTriggers.Trigger.constructor | Assets/Scripts/Level/Trigger/Level3/LVL3_LikeTheMelody.cs:11-13 | Awake opens the latch. |
| LevelTriggers.Trigger.OnTriggerEnter2D | Assets/Scripts/Level/Trigger/Level4/LVL4_TeaAndCookies.cs:15-22 | The latch and the fired event are exactly Enter of the old latch and the tag. |

## Left out

- Engine calls are not modelled: colliders, rigid-body rotation and freezing, lights, particles, line renderer, ghosting, circle rotation, sprite renderers other than the player's texture, TextMeshPro, `Debug.Log`. Animator plays, camera shakes, sounds, scripted events and forwarded settings appear only as returned notices.
- `rb2d.Cast`, `Vector2.magnitude` and `Vector2.normalized`, the pointer angle (`getAngleMousePlayer`, which uses acos and square roots), `Input`, `Time`, `PlayerPrefs` and `Resources` are parameters, not computed.
- Float rounding is not modelled: every quantity is a `real`. The spawn arm's drift of exactly 0.76 is therefore the real-number value.
- LevelTiming.LevelTimer.Update: the timer is kept in whole milliseconds. The float seconds counter and the `(int)(currentTimer * 1000f)` cast, with its 32-bit overflow, are not modelled.
- LevelTiming.LevelTimer.Update takes the per-frame increment as given: it adds one physics step per call, and its relation to wall-clock time (the frame rate) is not modelled.
- Coroutines: respawn and PlayDialog become explicit step methods at their waits; PlayDialog's first step runs inside setDialogue, as `StartCoroutine` runs a coroutine up to its first wait. moveOutHoldingArm is one method with its waits removed. The waits themselves, the scheduler, and the typewriter's per-character delay (audio length / text length) are not modelled.
- `StopCoroutine(respawn())` (Assets/Scripts/PlayerController.cs:297), `StopCoroutine(PlayDialog())` (Assets/Scripts/DialogSystem.cs:104 and 219) and `StopCoroutine(moveOutHoldingArm())` (Assets/Scripts/Level/Elements/SpawnPoint.cs:171 and 215) are each handed a fresh enumerator and stop nothing. The model keeps them as no-ops; `StopFreshPlayDialog` only records the call.
- Interrupted dialogs: a PlayDialog interrupted by setDialogue keeps running, so it goes on typing the shared text and hides the box at its own end (Assets/Scripts/DialogSystem.cs:218), possibly in the middle of the newer dialog. The model has no concurrent coroutines, so this interleaving is not modelled.
- `Dialog.setAudioClip` and the `audioClip` field are resource loading and are not modelled. `Dialog` is a C# struct; its copy semantics are not modelled, and the model uses a reference type.
- DialogQueue: the `dialogIcons` sprite array is represented by the icon index only. A sprite array shorter than nine entries is not modelled.
- DialogQueue.DialogSystem.constructor: `dialogQueue`, `dialogBoxVisible` and `dialogIcons` are static in C#, so they outlive a scene, and Awake clears only the queue. The model is one object whose constructor also hides the box, which matches a first load only; a box left visible from an earlier scene is not modelled.
- String lengths: C# `string.Length` counts UTF-16 code units, while `|s|` here counts characters. The two agree for the ASCII texts of the dialogs; text outside the Basic Multilingual Plane would be typed differently.
- LevelSettingsStore: the integer ids of the `Player` constants are stand-ins (0..5). The `Player` class is not part of this model.
- Both level-settings classes: values set in the inspector over the serialized defaults, and the loop that enables ground-prefab colliders, are not modelled. `Start` only reports whether that loop runs.
- PlayerControl: `animationArray` is static in C#; it is a field here. The `default` branch of the shape switch in `ChangeState` is unreachable, because the shape is a datatype. A null name of an `Attributes` entry is written "".
- PlayerControl.PlayerController.Update states only the target velocity, the jump and the dead-player case. It inherits the rest from ComputeVelocity.
- `PlayerController` declares its own `state` field, which hides `PhysicsObject.state`. The two are separate fields here, as in C#, and nothing in the model links them.
- The double jump: nothing in the code stops a rising triangle from jumping again in the air, so the model allows it too (TriangleAirJumpsUnlimited).
- Deaths: `respawn` is started without a guard against an already running respawn, and the model adds none.
- Steering: the vertical steering offset is never positive, whichever side the pointer is on (SteeringFromZero).
- The main-menu ground animation is not modelled.

## Findings

| source | as written | input that shows it | evidently intended | confidence | as-written member | corrected member |
|---|---|---|---|---|---|---|
| Assets/Scripts/Level/LevelTimer.cs:37 | The timer counts seconds and is clamped at 9599999, that is 9599999 seconds. LevelTimer.Update keeps this clamp, as written. | A timer of 10000 s is not clamped. It displays as "10:00:0000": ten characters with the second colon in the wrong place. | The comment and the `DD:DD:DDD` display mean 95:99:999, a clamp at 9599999 milliseconds (9599.999 s), under which every value fits nine characters. | not executed | LevelTiming.WrittenClampOverflowsDisplay | LevelTiming.ClampFitsDisplay |

The class keeps the code as written: `LevelTimer.Update` clamps with `ClampAsWritten`. The corrected clamp `Clamp` and its property `ClampFitsDisplay` stand beside it as the intended behaviour.
