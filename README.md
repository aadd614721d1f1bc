# Player collision and contact core of Jackie the Dog

This project models in Dafny the collision and contact logic of the player sprite of a
pygame platformer (`code/player.py`). Once per frame the player does the following:

- it remembers last frame's rectangle;
- it runs its two timers and reads the keys;
- it moves horizontally and resolves collisions on that axis;
- it moves vertically and resolves collisions on that axis;
- it senses its contact flags with four one-unit probes;
- it is carried by the moving platform it stands on.

The world is a sequence of terrain sprites (basic tiles, moving platforms, 45-degree ramps) and a
sequence of semi-solid (one-way) platforms. Each sprite has a rectangle, a type tag and, for a
sprite that can move, its motion data:

- last frame's rectangle;
- speed and direction;
- the axis of its path;
- whether it carries the player without bottom contact.

The modules follow the source's parts:

- `Geometry` holds float rectangles, with pygame's `colliderect` as `Overlaps`.
- `World` holds sprites and tags, plus the `TILE_SIZE`, `PLAYER_VEL_Y` and `PLAYER_MAX_VEL_X` constants as positive parameters.
- `Ramp` is `collision_ramp`.
- `Broadphase` is `fill_collide_lists`.
- `Contact` holds the contact probes, the carrier choice and `platform_move`.
- `Resolve` holds the collision rules of `collision` and `semi_collisions`, one step per sprite, folded over each list in order.
- `Controller` holds `jump`, the key latches of `player_input`, and the timers seen as active flags.
- `PlayerModel.Player` is the player as a class:
  - its fields are the ones the source updates in place;
  - its methods carry the source's loops;
  - each method is proved to leave the fields as the specification functions of the other modules say.

Coordinates and velocities are exact reals. The two sprite groups have the type
`TaggedSprites`: every sprite tagged as a moving object carries its motion data.

## Model

| member | source | states |
|---|---|---|
| Geometry.OverlapsMeaning | code/player.py:154 | `colliderect`: an empty rectangle overlaps nothing; rectangles of positive size overlap exactly when each starts before the other ends on both axes; the order of the two does not matter |
| Ramp.ClampHeight | code/player.py:271-273 | the height is bounded to [0, TILE_SIZE]; inside that range it is unchanged, above it is TILE_SIZE, below it is 0 |
| Ramp.OccupiedHeight | code/player.py:258-273 | the ramp height under the player always lies in [0, TILE_SIZE] |
| Ramp.FloorY | code/player.py:276 | the target floor y always lies between the ramp's top and its top plus TILE_SIZE |
| Ramp.CollisionRamp | code/player.py:251-284 | its two directions: it reports a hit, at the clamped floor y of the ramp, exactly when the bottom is at or below that y and at most one unit below the ramp's bottom; otherwise it returns (false, 0) |
| Ramp.OccupiedHeightUnclamped | code/player.py:258-268 | within the unclamped range the height is rel_x + width for a right ramp and TILE_SIZE - rel_x for a left ramp |
| Ramp.FloorSlope | code/player.py:258-276 | the surface is at 45 degrees: inside the unclamped range of the ramp's own kind, moving d to the right raises a right ramp's floor by d and lowers a left ramp's floor by d |
| Ramp.FloorMonotone | code/player.py:258-276 | everywhere, also where the clamp applies, a right ramp's floor only rises to the right and a left ramp's only falls |
| Ramp.RightRampExample | code/player.py:251-284 | a 32-unit right ramp at the origin and a 16-wide player at x = 8: the floor is at y = 8; a bottom at 8 hits, a bottom at 7 does not |
| Broadphase.Hits | code/player.py:146-161 | each list is no longer than its group, and everything in it is from the group, overlaps the target and has an accepted tag |
| Broadphase.HitsSnoc | code/player.py:155-161 | one more sprite in the group appends that sprite to the list exactly when it overlaps and its tag is accepted |
| Broadphase.HitsMember | code/player.py:155-161 | a sprite is in the list if and only if it is in the group, overlaps the target and has an accepted tag |
| Broadphase.HitsNoneOverlap | code/player.py:152-161 | a group none of whose sprites overlaps the target gives an empty list |
| Broadphase.ListsSeparate | code/player.py:155-161 | no sprite is in both the basic and the ramp list; a sprite with any other tag is in neither |
| Broadphase.HitsMotionTagged | code/player.py:155-161 | the lists keep the requirement that a moving-object sprite carries motion data |
| Contact.TopProbe | code/player.py:168 | the top probe is a one-unit strip whose bottom is the player's top and whose width is the player's |
| Contact.BotProbe | code/player.py:170 | the bottom probe is a one-unit strip whose top is the player's bottom |
| Contact.LeftProbe | code/player.py:172 | the left probe is one unit wide, ends at the player's left edge, and covers the middle half of its height |
| Contact.RightProbe | code/player.py:174 | the right probe is one unit wide, starts at the player's right edge, and covers the middle half of its height |
| Contact.RampTouch | code/player.py:199-214 | in both directions: top exactly when the top probe overlaps the ramp; otherwise bot exactly when the bottom probe overlaps it and stands on its surface; otherwise left exactly for a right ramp the left probe overlaps with the player's left edge at or right of the ramp's right face, and right exactly for a left ramp the right probe overlaps with the player's right edge at or left of the ramp's left face; never both sides |
| Contact.RampFlags | code/player.py:198-213 | the flags accumulated over the group in order are exactly the flags some ramp of the group raises |
| Contact.RampFlagsSnoc | code/player.py:197-211 | adding one sprite to the group adds exactly the flags that sprite raises as a ramp |
| Contact.SenseContact | code/player.py:163-219 | top, left and right hold exactly when a basic or moving tile touches that probe or some ramp raises the flag; bot also holds when a semi-solid platform supports the bottom probe |
| Contact.SemiIgnoredWhileRising | code/player.py:191-195 | while the player rises, the semi-solid platforms change no contact flag |
| Contact.SemiIgnoredFromInside | code/player.py:191-195 | a semi-solid platform whose top is above the player's bottom adds no contact |
| Contact.SlopeIsNoWall | code/player.py:203-211 | a left ramp never sets left contact and a right ramp never sets right contact |
| Contact.SolidTouchIgnoresRamp | code/player.py:176 | a ramp added to the terrain group changes no solid-tile probe result, since only basic and moving tiles are in `collide_rects` |
| Contact.LastCarrier | code/player.py:219-226 | the carrier, when there is one, is a moving sprite of the two groups under the bottom probe; there is none exactly when no sprite qualifies |
| Contact.LastCarrierIsLast | code/player.py:224-226 | no qualifying sprite comes after the carrier: the last candidate wins |
| Contact.PlatformMove | code/player.py:138-144 | with a carrier and either bottom contact or the carrier's full collision, the player moves by direction times speed times dt on both axes; otherwise it stays; its size is kept |
| Contact.CarryRule | code/player.py:138-144 | with full collision the contact flags do not matter; without it, no bottom contact means no move |
| Resolve.CutJump | code/player.py:295-298 | in a jump, the vertical speed is scaled by 0.25 and the jump ends; nothing else changes |
| Resolve.RampExitGuard | code/player.py:291-307 | on a slope with top contact: top is cleared, a running jump is cut to a quarter of the vertical speed, the player stops, and rect.left and old_rect.left both become old_rect.left - 1 on a right ramp and + 1 otherwise; in any other case nothing changes |
| Resolve.SemiStep | code/player.py:233-249 | a platform rising into the feet or reached from above puts the bottom on its top, and zeroes the speed only if the player was falling; any change comes from one of these two cases; only the rectangle and the vertical speed ever change |
| Resolve.MovingStepH | code/player.py:318-325 | a platform on the x path whose right edge reaches the player's left side puts the player's left on it; otherwise one whose left edge reaches the right side puts the right on it; nothing else moves the player |
| Resolve.StaticStepH | code/player.py:327-339 | a snap only after crossing an edge from outside: from the right it sets left = tile.right, otherwise from the left it sets right = tile.left; the x speed drops to 0 unless on a slope |
| Resolve.MovingStepV | code/player.py:341-351 | a platform on the y path rising into the feet puts the bottom on its top and stops the player; otherwise one coming down on the head puts the top on its bottom and cuts the jump; nothing else changes anything |
| Resolve.StaticStepV | code/player.py:353-364 | a fall from above sets bottom = tile.top and speed 0; otherwise coming from below sets top = tile.bottom, ends the jump and keeps a quarter of the speed of a running jump; otherwise nothing changes |
| Resolve.RampStepH | code/player.py:368-390 | on_ramp_wall is reset for each ramp and holds exactly when the wall face (right of a right ramp, left of a left ramp) was crossed, which snaps the player flush to it and stops it; otherwise the low end blocks (flush to the other side) only a player whose bottom is below the ramp's bottom |
| Resolve.RampStepV | code/player.py:392-405 | from below, the ramp's bottom is a ceiling: top = ramp bottom and the jump is cut; otherwise, unless a ramp wall was hit, a hit of collision_ramp sets the slope state with the ramp's kind, stops the player and puts its bottom on the floor y; in every other case nothing changes |
| Resolve.Step | code/player.py:312-405 | one sprite of any of the three loops: only the ramp loop changes the slope and wall state; the semi-solid loop does nothing horizontally; after a ramp-wall hit the vertical ramp step keeps the slope state |
| Resolve.StepKeepsOtherAxis | code/player.py:312-405 | a horizontal step leaves the y data, jump and slope state alone; a vertical step leaves the x data and the wall flag alone |
| Resolve.Fold | code/player.py:231-405 | a whole loop, in list order: it keeps the other axis, the semi-solid and basic loops keep the slope and wall state, the semi-solid loop is the identity horizontally, and after a ramp-wall hit the vertical ramp loop keeps the slope state |
| Resolve.SemiCollisions | code/player.py:228-249 | nothing changes while the drop-down timer runs or on the horizontal axis; otherwise only the rectangle's y and the vertical speed change, and the speed only drops to 0 from a fall |
| Resolve.Collision | code/player.py:286-405 | after the ramp-exit guard, a horizontal call leaves the y data, jump and slope state alone, and a vertical call the x data and the wall flag |
| Resolve.SlopeSetOnlyByOverlappedRamp | code/player.py:106-107 | with the slope flag cleared before the vertical collision, it is set afterwards only by a ramp sprite the player overlapped, and it names that ramp's kind |
| Resolve.SemiPassOnlyLands | code/player.py:228-249 | a whole semi-solid pass only puts the bottom on some platform's top, and zeroes the speed only if the player was falling |
| Resolve.SemiLandsFromAbove | code/player.py:228-249 | with no terrain around, a platform reached from above is landed on (bottom on its top, a fall stopped) by the vertical collision, and ignored while the drop-down timer runs |
| Resolve.MoveAndCollide | code/player.py:80-107 | the horizontal collision on the new x, then the vertical collision on the new bottom with the slope flag cleared: old_rect keeps its y and size |
| Resolve.MoveAndCollideSlope | code/player.py:82-107 | after both passes, a slope state names the kind of a ramp of the terrain group |
| Resolve.SlopeComesFromRamp | code/player.py:398-405 | a slope state set by the vertical ramp loop names the kind of a ramp from the list |
| Resolve.RampWallIsLastRamps | code/player.py:366-390 | after the horizontal ramp loop, on_ramp_wall is the last ramp's wall test; with no ramps it keeps its earlier value |
| Resolve.EarlierRampWallForgotten | code/player.py:366-390 | concrete case: the player overlaps two adjacent right ramps, both broad-phase hits; the wall hit on the first is forgotten because the second follows |
| Resolve.AlreadyInsideNoSnap | code/player.py:327-364 | a player that already overlapped a tile last frame on an axis is not snapped on that axis |
| Resolve.EdgeCrossingExample | code/player.py:327-333 | concrete case: crossing a tile's right edge at 90 snaps the left edge to 90 and stops the player; not crossing it does nothing |
| Controller.Jump | code/player.py:117-136 | only the speeds and jump flag change, and the latches change only through a new wall-jump lock; any change starts a jump that was not running |
| Controller.GroundJumpRule | code/player.py:124-126 | a grounded jump with nothing overhead subtracts PLAYER_VEL_Y and changes nothing else |
| Controller.WallJumpRule | code/player.py:128-136 | a wall jump subtracts 0.7 PLAYER_VEL_Y, sets x speed +MAX off a left wall and -MAX otherwise, starts the lock and drops both latches |
| Controller.JumpBlocked | code/player.py:124-136 | in a jump, in the air while the lock runs, in the air without a wall, or under a ceiling, a jump does nothing |
| Controller.WallJumpThenLocked | code/player.py:128-136 | a second wall jump right after the first does nothing while the lock runs, even once space was released |
| Controller.ExpireTimers | code/player.py:415-417 | each timer stops exactly when its duration is over and keeps its state otherwise; the key latches are untouched |
| Controller.PlayerInput | code/player.py:40-65 | only the speeds and the jump flag of the body change; the lock runs exactly when it ran or space started a wall jump; a latch holds only while its key is held; the drop-down timer runs exactly when it ran or s is held |
| Controller.StartFrame | code/player.py:419-425 | old_rect becomes the current rectangle, the timers run, then the input is read; the drop-down timer runs afterwards exactly when it has not expired or s is held; the lock runs afterwards exactly when it has not expired or space starts a wall jump against the expired timers |
| Controller.LockExpiresLatchesReturn | code/player.py:419-425 | at the start of a frame (timers, then `player_input`), once the lock's duration is over and no new wall jump starts, the lock is off and the a and d latches equal the keys again |
| Controller.LatchRules | code/player.py:47-65 | a latch holds only while its key is held; with no lock it equals the key; under the lock no new latch is set |
| Controller.WallJumpDropsLatches | code/player.py:44-65 | a wall jump on this frame's press leaves both latches off, the lock running and the jump on |
| Controller.JumpReleaseRule | code/player.py:57-60 | releasing space ends a jump and keeps a quarter of the vertical speed; holding it keeps what the jump rule produced |
| Controller.TimerRules | code/player.py:53-54 | s starts the drop-down timer; input never stops a timer; a new lock comes only from a wall jump |
| PlayerModel.Player.constructor | code/player.py:6-38 | the player starts at rest at its position, touching nothing, with empty lists and no latch or timer active |
| PlayerModel.Player.FillCollideLists | code/player.py:146-161 | the three lists are rebuilt from scratch: they are the hits of the terrain group (basic/moving, ramps) and of the semi-solid group |
| PlayerModel.Player.CollectTerrain | code/player.py:148-159 | both terrain lists are reset, then the loop appends exactly the overlapping basic/moving tiles and the overlapping ramps, in group order |
| PlayerModel.Player.CollectSemi | code/player.py:150-161 | the semi-solid list is reset, then the loop appends exactly the overlapping platforms, in group order |
| PlayerModel.Player.CheckContact | code/player.py:163-226 | the flags are those of SenseContact on the current geometry alone, and the carrier is the last qualifying sprite |
| PlayerModel.Player.SemiFloor | code/player.py:191-196 | the loop, with its early exit, finds a supporting semi-solid platform exactly when one exists |
| PlayerModel.Player.RampContacts | code/player.py:198-213 | the ramp loop adds to the flags already set the accumulated ramp flags of the terrain group |
| PlayerModel.Player.RampContact | code/player.py:199-213 | one ramp adds exactly the flags RampTouch gives it |
| PlayerModel.Player.FindCarrier | code/player.py:221-226 | the loop, which does not break, yields the last moving sprite under the bottom probe |
| PlayerModel.Player.ResolveSemi | code/player.py:233-249 | one semi-solid platform on the vertical axis, as SemiStep |
| PlayerModel.Player.SemiCollisions | code/player.py:228-249 | the loop equals the semi-solid fold, and does nothing while the drop-down timer runs |
| PlayerModel.Player.ResolveBasic | code/player.py:316-364 | one basic or moving tile: the moving rule, then the static rule of its axis |
| PlayerModel.Player.PushedSideways | code/player.py:318-325 | as MovingStepH |
| PlayerModel.Player.PushedVertically | code/player.py:341-351 | as MovingStepV |
| PlayerModel.Player.SnapHorizontal | code/player.py:327-339 | as StaticStepH |
| PlayerModel.Player.SnapVertical | code/player.py:353-364 | as StaticStepV |
| PlayerModel.Player.ResolveRamp | code/player.py:366-405 | one ramp, as RampStepH or RampStepV |
| PlayerModel.Player.RampSideways | code/player.py:368-390 | as RampStepH |
| PlayerModel.Player.RampVertically | code/player.py:392-405 | as RampStepV |
| PlayerModel.Player.ExitRampGuard | code/player.py:291-307 | as RampExitGuard; the latches and timers are untouched |
| PlayerModel.Player.BasicLoop | code/player.py:316-364 | the loop equals the left fold of the basic rule over the list, in list order |
| PlayerModel.Player.RampLoop | code/player.py:366-405 | the loop equals the left fold of the ramp rule over the list, in list order |
| PlayerModel.Player.ResolveLists | code/player.py:313-405 | the semi-solid, basic and ramp loops in that order, each on the state the previous one left |
| PlayerModel.Player.Collision | code/player.py:286-405 | as Resolve.Collision: the guard, then the broad phase on the guarded rectangle, then the three loops; the latches and timers are untouched |
| PlayerModel.Player.Jump | code/player.py:117-136 | as Controller.Jump on the fields |
| PlayerModel.Player.PlayerInput | code/player.py:40-65 | as Controller.PlayerInput on the fields |
| PlayerModel.Player.PressKeys | code/player.py:47-55 | the key-down half of the input after the jump: a and d latch unless the lock runs, s starts the drop-down timer |
| PlayerModel.Player.ReleaseKeys | code/player.py:57-65 | the key-up half: releasing space cuts a running jump, releasing a or d drops its latch |
| PlayerModel.Player.PlatformMove | code/player.py:138-144 | as Contact.PlatformMove on the rectangle |
| PlayerModel.Player.UpdateTimers | code/player.py:415-417 | as ExpireTimers on the timer flags |
| PlayerModel.Player.HorizontalMovement | code/player.py:80-82 | the horizontal collision on the integrated position; old_rect keeps its y and size; the latches and timers are untouched |
| PlayerModel.Player.VerticalMovement | code/player.py:104-107 | the slope flag is cleared, then the vertical collision runs; old_rect, the latches and the timers are unchanged; a slope afterwards names a ramp of the terrain group |
| PlayerModel.Player.BeginFrame | code/player.py:420-425 | as Controller.StartFrame on the fields: old_rect becomes the frame's starting rectangle, then the timers run and the input is applied |
| PlayerModel.Player.Movement | code/player.py:426-427 | as Resolve.MoveAndCollide on the fields; the latches and timers are untouched |
| PlayerModel.Player.SenseAndCarry | code/player.py:428-429 | the flags and carrier are those of the rectangle at the end of the collision passes, the carrier then moves the player as PlatformMove says, and nothing else changes |
| PlayerModel.Player.MoveAndSense | code/player.py:426-429 | both collision passes as MoveAndCollide, then the contact flags and carrier of the resulting rectangle, then the carrier's move; the latches are untouched |
| PlayerModel.Player.Update | code/player.py:419-429 | one frame: the latches and timers are those of StartFrame; speeds, jump, slope and wall state are those of MoveAndCollide run on StartFrame's body; the contact flags and carrier are those of the rectangle MoveAndCollide produced; the carrier then moves the player |

## Left out

- Kinematic integration (`horizontal_movement`, `vertical_movement`, code/player.py:67-104) is left out: acceleration, friction, gravity, `math.ceil`, the stop against a wall and the vertical speed cap are float numerics. Their results (the new left edge and x speed, the new bottom and y speed) are parameters of `Update`. The order of the calls is kept, and so is clearing the slope flag before the vertical collision.
- `limit_velocity` (code/player.py:109-115) is not modelled: it writes only to a local variable, so it has no effect on the player.
- Rendering is not modelled: the display surface and image setup, the debug `pygame.draw.rect` in `check_contact`, and `rot_center`.
- Key polling with `pygame.key.get_pressed` becomes the `Keys` record of booleans for space, a, d and s.
- Timer internals are not modelled, and the `Timer` class is not part of this model. Each timer is an active flag: `activate` sets it, and whether its duration (200 and 100 ms) is over is a parameter of `UpdateTimers`.
- The moving platforms' own path motion is not modelled. Only the data the player reads from them is: rectangle, last rectangle, speed, direction, path axis, full collision.
- `FACING_LEFT`, `gravity`, `friction` and `acceleration` are not modelled: the collision core does not read them.
- pygame's `FRect` stores its coordinates as 32-bit floats, and the velocities are Python floats; the model uses exact reals, so rounding is not modelled.
- `fill_collide_lists` is modelled for the one call the source makes, with the terrain group and the semi-solid group. Group identity is therefore not modelled.
- PlayerModel.Player.Update: the contact flags are stated for the rectangle after the collision passes (`sensedAt`), not for the rectangle after the carrier moved the player, because that is where the source senses them.
- A sprite tagged as a moving object must carry motion data, in the terrain group (read at code/player.py:318-351) and in the semi-solid group (read at code/player.py:234-236). Without it the source fails on a missing attribute, and that failure is not modelled.
- `motion.Some?` stands for `hasattr(sprite, "moving")`, the test that makes a sprite a candidate carrier (code/player.py:224). Path data is read on a different test, the `MOVING_OBJECTS` tag (code/player.py:318-351). The requirement above ties the two together. So a `MOVING_OBJECTS` sprite without the `moving` attribute, which the source never takes as a carrier, cannot be represented.
- `check_contact` does not consult the drop-down timer, so a semi-solid platform still gives bottom contact while it runs (code/player.py:192-196); the model follows the code.
