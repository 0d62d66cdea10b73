# fps-game: the movement, collision and state core, in Dafny

This project models the game logic of a small three.js first-person game:

- **The player's per-frame update.** Each frame applies gravity, probes the ground and snaps onto the first box hit, handles the jump and the key direction, smooths the horizontal velocity, runs an all-or-nothing horizontal collision test, applies the vertical move and rebuilds the collider. Mouse look is modelled too.
- **The world.** It builds a floor, twenty alternating wall sections and an end platform. The meshes and their bounding boxes are kept in two index-aligned lists, and the box list is what the player collides with.
- **The enemy's state machine.** It chases inside detection range, attacks on a cooldown, and dies at or below zero health.
- **The heads-up display.** The health bar is clamped and coloured by band, and the ammo counter shows its text and a colour by band.

Modules, one per source file:

- `Geometry` (`geometry.dfy`): vectors, `Box3`, `setFromCenterAndSize`, `intersectsBox` (closed intervals, so touching counts), the first-hit search and the clamp.
- `PlayerControl` (`player.dfy`):
  - `Tick` is one `update` as a function of the previous state.
  - The class `Player` runs the same frame in place, including both obstacle loops with their early `break`, and is proved to produce `Tick`'s state.
  - Lemmas about `Tick` state what a frame does.
- `WorldLayout` (`world.dfy`):
  - `Layout`, `Lights` and `SceneLayout` are what `createWorld` builds.
  - The class `World` builds them with the source's loops and pushes.
  - The collider array is its own object (`ColliderList`), because `getColliders` hands out the live array.
- `EnemyAI` (`enemy.dfy`): `Step` and `Damage` are the spec functions. The class `Enemy` is proved against them.
- `Hud` (`hud.dfy`): the band functions, the counter text with a parser that reads it back, and the class `GameUI`.
- `Scenarios` (`scenarios.dfy`): the player on the world's own collider list, the way `src/game/Game.ts:48` wires them.

Inputs that the source computes with floating point, trigonometry or square roots are parameters of a frame:

- the camera's forward and right vectors;
- the scale factors that `normalize` applies;
- the two `1 - Math.pow(…)` lerp factors;
- for the enemy, the distance to the player and the two `Date.now()` readings.

`FrameOk` and `SenseOk` state the bounds these inputs satisfy. `FrameOk` says both camera vectors have y = 0, each `normalize` scale is the positive reciprocal length of a non-zero vector, and both lerp factors lie in [0, 1]. It does not state that the camera vectors have unit length, and no lemma needs that.

## Model

| member | source | states |
|---|---|---|
| Geometry.FromCenterAndSize | src/game/Player.ts:126-133 | the box is as wide as the size on each axis and centred on the centre; it contains the centre when the size is non-negative |
| Geometry.FirstHit | src/game/Player.ts:145-154 | the index found is the first obstacle in list order that the probe intersects: every earlier obstacle misses it, and `None` means every obstacle misses it |
| Geometry.AnyHitIffFirstHit | src/game/Player.ts:224-230 | some obstacle meets the box exactly when the first-hit search finds one |
| Geometry.IntersectsIffSharedPoint | src/game/Player.ts:147 | for well-formed boxes, `intersectsBox` holds exactly when the boxes share a point, so touching boxes intersect |
| Geometry.Clamp | src/game/UI.ts:91 | the result lies in [lo, hi], equals the value when it is already in range, and is the nearer bound otherwise |
| PlayerControl.ColliderAt | src/game/Player.ts:124-134 | the collider spans x ± w/2, z ± w/2 and y from eye − h − 0.1 to eye + 0.1, and it contains the eye point |
| PlayerControl.GroundProbe | src/game/Player.ts:141-143 | the probe is the collider with both min.y and max.y moved by `velocity.y * delta`, and x and z unchanged |
| PlayerControl.RawDirection | src/game/Player.ts:166-170 | each component is −1, 0 or 1 and y is 0; z is −1 exactly for 'w' without 's' and +1 exactly for 's' without 'w'; the same holds for x with 'a' and 'd', so opposite keys cancel |
| PlayerControl.RawDirectionZero | src/game/Player.ts:172-175 | the key direction has length 0 exactly when opposite keys cancel on both axes, and length at least 1 otherwise |
| PlayerControl.MoveDirection | src/game/Player.ts:166-175 | the direction has y = 0 and is zero without a net key |
| PlayerControl.MoveDirectionLength | src/game/Player.ts:172-175 | with the reciprocal length as scale, the direction of a frame with a net key is a unit vector, and without one it is zero |
| PlayerControl.Target | src/game/Player.ts:188-200 | with no net key the target velocity is exactly (0, 0) |
| PlayerControl.TargetVelocity | src/game/Player.ts:188-200 | zero for a zero direction; otherwise `moveSpeed` times the x and z of the scaled move vector. Characterised further by `TargetSpeed` and `TargetComponentsBounded` |
| PlayerControl.TargetSpeed | src/game/Player.ts:177-200 | on a frame whose inputs satisfy `FrameOk`, with a net key and a non-zero move vector the target speed is exactly `moveSpeed` (its squared length is `moveSpeed²`); with a net key and a zero move vector the target is (0, 0) |
| PlayerControl.TargetComponentsBounded | src/game/Player.ts:189-200 | on a frame whose inputs satisfy `FrameOk`, each component of the target velocity lies within `moveSpeed` |
| PlayerControl.Lerp | src/game/Player.ts:204 | `Vector2.lerp`; no ensures of its own, characterised by `LerpBetween` |
| PlayerControl.SmoothedVelocity | src/game/Player.ts:202-204 | the lerp toward the target with the ground or the air factor; no ensures of its own, bounded by `QuietDisplacementBounded` |
| PlayerControl.LerpBetween | src/game/Player.ts:203-204 | a lerp factor in [0, 1] keeps each component between its start and target values; a factor of 0 keeps the start and a factor of 1 reaches the target |
| PlayerControl.HorizontalCandidate | src/game/Player.ts:212-222 | the test box is centred on the new x/z with the player's width; as written it keeps the collider's y-range, and under the corrected rule it starts 0.2 higher |
| PlayerControl.VerticalStep | src/game/Player.ts:137-163 | gravity, the probe, the snap and the jump, and the fall by velocity.y × delta when there is no contact (the move at the end of `update`); no ensures of its own, characterised by `TickSnapsToFirstHit`, `TickFallsWhenAirborne`, `TickCanJump` and `QuietVertical` |
| PlayerControl.HorizontalStep | src/game/Player.ts:207-239 | the all-or-nothing horizontal move; no ensures of its own, characterised by `HorizontalStepAllOrNothing`, `RestHorizontalBlocked` and `RaisedHorizontalMoves` |
| PlayerControl.Tick | src/game/Player.ts:136-247 | one `update` as written, as a function of the old state; no ensures of its own, characterised by the `Tick…` lemmas, by `QuietFrameKeepsRest`, and by `Player.Update`, which is proved to reach exactly this state |
| PlayerControl.CorrectedTick | src/game/Player.ts:136-247 | the same frame with the horizontal test box starting 0.1 above the feet; no ensures of its own, characterised by `CorrectedQuietFrameMoves` and `CorrectedRestStep` |
| PlayerControl.TickSnapsToFirstHit | src/game/Player.ts:137-163 | if obstacle k is the first one the probe meets (the probe taken after gravity), the feet land on k's top face whatever later obstacles do; velocity.y becomes 0, or the jump force with space held; canJump is true exactly without a jump |
| PlayerControl.TickFallsWhenAirborne | src/game/Player.ts:137-244 | with no ground contact, velocity.y is the old value minus `gravity * delta`, y moves by it once, and no jump is possible |
| PlayerControl.TickCanJump | src/game/Player.ts:156-163 | after a frame `canJump` holds exactly when the probe met an obstacle and space was not held; a jump from the ground sets velocity.y to the jump force |
| PlayerControl.TickHorizontalAllOrNothing | src/game/Player.ts:207-239 | if any obstacle meets the test box at the new x/z, x and z are unchanged and the horizontal velocity is (0, 0); otherwise x and z are exactly the new position and the smoothed velocity is kept |
| PlayerControl.HorizontalStepAllOrNothing | src/game/Player.ts:224-239 | helper of `TickHorizontalAllOrNothing`: the same decision for either height rule, on the horizontal stage alone |
| PlayerControl.TickColliderFollowsPosition | src/game/Player.ts:246-247 | after every frame the collider is the one built from the new position, and velocity.x and velocity.z are untouched |
| PlayerControl.SupportBlocksAsWritten | src/game/Player.ts:212-226 | with the feet on a box's top face, the as-written test box meets that box at every x/z over its footprint |
| PlayerControl.SupportClearAboveFeet | src/game/Player.ts:212-226 | under the corrected rule, the box the feet stand on never meets the test box |
| PlayerControl.QuietProbeMeetsSupport | src/game/Player.ts:138-148 | from rest on a box, the probe of a frame of at most 0.25 s reaches that box |
| PlayerControl.QuietVertical | src/game/Player.ts:137-163 | a frame of at most 0.25 s without a jump, from rest on the first obstacle, has ground contact, keeps y and ends with velocity.y = 0 and canJump |
| PlayerControl.QuietDisplacementBounded | src/game/Player.ts:202-209 | from zero horizontal velocity, one bounded frame moves x and z by at most `moveSpeed * 0.25` each |
| PlayerControl.RestHorizontalBlocked | src/game/Player.ts:212-239 | as written, the horizontal stage from rest on the first obstacle is blocked for every such move |
| PlayerControl.SupportMeetsDisplaced | src/game/Player.ts:212-226 | a move of that size from rest still meets the supporting box |
| PlayerControl.QuietFrameKeepsRest | src/game/Player.ts:136-247 | as written, a player resting on the first obstacle is still resting there, at the same position, after any frame of at most 0.25 s without a jump (`QuietFrame`), whatever movement keys are held |
| PlayerControl.QuietFramesKeepRest | src/game/Player.ts:136-247 | the same over any number of such frames, each of at most 0.25 s without a jump (`QuietFrame`) |
| PlayerControl.RaisedHorizontalMoves | src/game/Player.ts:212-239 | under the corrected rule, the support never blocks: the horizontal stage moves by velocity × delta when no other obstacle meets the raised test box |
| PlayerControl.CorrectedQuietFrameMoves | src/game/Player.ts:136-247 | under the corrected rule, a frame of at most 0.25 s without a jump from rest, whose raised test box meets no obstacle but the support (`ClearOfOthers`), moves x and z by exactly the smoothed velocity × delta, keeps y, stays grounded and rebuilds the collider there |
| PlayerControl.CorrectedRestStep | src/game/Player.ts:136-247 | the whole corrected frame from rest, once its horizontal stage is known to move |
| PlayerControl.FindFirstHit | src/game/Player.ts:145-154 | the ground loop with `break` returns exactly the first-hit index |
| PlayerControl.AnyOverlap | src/game/Player.ts:224-230 | the horizontal loop with `break` reports a block exactly when some obstacle meets the box |
| PlayerControl.KeyDirection | src/game/Player.ts:166-170 | the four key tests build exactly the key direction |
| PlayerControl.Player.constructor | src/game/Player.ts:23-39 | the player starts at (0, 2, 5) at rest, can jump, has yaw and pitch 0, and has its collider rebuilt from that position |
| PlayerControl.Player.UpdateCollider | src/game/Player.ts:124-134 | the collider becomes the one built from the current position |
| PlayerControl.Player.Update | src/game/Player.ts:136-254 | one update in place leaves exactly the state `Tick` computes from the old state; yaw and pitch are unchanged, and the collider still follows the position |
| PlayerControl.Player.ApplyGravityAndGround | src/game/Player.ts:137-163 | gravity, the probe loop, the snap and the jump leave the velocity, y and canJump that the vertical stage decides |
| PlayerControl.Player.UpdateMoveDirection | src/game/Player.ts:165-175 | the stored direction is the key direction, normalised only when its length is positive |
| PlayerControl.Player.TargetFromDirection | src/game/Player.ts:188-200 | the target velocity is the frame's target |
| PlayerControl.Player.MoveHorizontally | src/game/Player.ts:207-239 | x, z and the horizontal velocity become what the all-or-nothing stage decides, and y is unchanged |
| PlayerControl.Player.MouseMove | src/game/Player.ts:97-104 | with the pointer locked, yaw changes by exactly −movementX × sensitivity and pitch becomes the clamped new pitch, within [−π/2, π/2]; without the lock nothing changes |
| WorldLayout.BoxOf | src/game/World.ts:88 | the box of an unrotated mesh is well formed and contains the mesh's centre |
| WorldLayout.AlignedAppend | src/game/World.ts:85-89 | appending aligned meshes and boxes keeps two lists aligned exactly when they were aligned before |
| WorldLayout.AlignedIffBoxesOf | src/game/World.ts:5-6 | the lists are aligned exactly when the box list is the boxes of the mesh list |
| WorldLayout.RecomputeAligned | src/game/World.ts:113-118 | on aligned lists, recomputing every box changes nothing |
| WorldLayout.WallZ | src/game/World.ts:42 | the z of wall i; no ensures of its own, characterised by `WallGeometry` and `WallsAlternate` |
| WorldLayout.WallX | src/game/World.ts:43 | the x of wall i; no ensures of its own, characterised by `WallGeometry` and `WallsAlternate` |
| WorldLayout.WallColor | src/game/World.ts:48 | the colour number of wall i as written; no ensures of its own, characterised by `WallGeometry` and `LastWallColorWraps` |
| WorldLayout.WallMesh | src/game/World.ts:45-49 | the mesh the loop passes to `createWall` for wall i; no ensures of its own, characterised by `WallGeometry` |
| WorldLayout.Layout | src/game/World.ts:17-53 | the meshes `createWorld` builds, in order; no ensures of its own, characterised by `LayoutOrder` and `FloorTopAtZero` |
| WorldLayout.Lights | src/game/World.ts:55-71 | the lights `createWorld` adds, in order; no ensures of its own, characterised by `LightKinds` |
| WorldLayout.SceneLayout | src/game/World.ts:15-72 | everything `createWorld` adds to the scene, meshes first; no ensures of its own, reached by `World.CreateWorld` and `World.constructor` |
| WorldLayout.LayoutOrder | src/game/World.ts:17-53 | the collider list has 22 entries: the floor at index 0, wall i at index 1 + i, and the platform last |
| WorldLayout.WallGeometry | src/game/World.ts:34-48 | wall i is centred at x = 7 for even i and x = −7 for odd i, y = 6 and z = −90 + 8i; its box spans one unit in x, 0 to 12 in y and 15 in z; its colour number is 0x4a4a4a + i × 0x0a0a0a |
| WorldLayout.WallsAlternate | src/game/World.ts:42-43 | consecutive sections are on opposite sides and 8 apart in z |
| WorldLayout.FloorTopAtZero | src/game/World.ts:18-25 | the floor's box has its top face at y = 0 and its bottom at y = −1, spanning x in [−20, 20] and z in [−100, 100] |
| WorldLayout.LightKinds | src/game/World.ts:55-71 | one ambient light, then three directional lights, then five point lights, at the source's positions |
| WorldLayout.RenderedColor | src/game/World.ts:48 | the colour kept for a colour number lies in 24 bits and equals the number when it fits |
| WorldLayout.LastWallColorWraps | src/game/World.ts:41-48 | the written gradient reaches 0xfefefe at wall 18, and wall 19's number exceeds 24 bits and shows as 0x090908, darker than wall 18 |
| WorldLayout.CorrectedWallColor | src/game/World.ts:48 | the corrected colour lies between 0x4a4a4a and 0xffffff |
| WorldLayout.CorrectedWallColorGradient | src/game/World.ts:48 | the corrected colour equals the written one for walls 0 to 18 and never darkens along the hallway |
| WorldLayout.ColliderList.constructor | src/game/World.ts:6 | the collider array starts empty |
| WorldLayout.World.constructor | src/game/World.ts:8-13 | a new world holds exactly the scene items, meshes and aligned boxes of the layout |
| WorldLayout.World.CreateWorld | src/game/World.ts:15-72 | adds the meshes then the lights to the scene, appends the layout's meshes to `objects` and their boxes to `colliders`, appends no light to either, and keeps the two lists aligned |
| WorldLayout.World.CreateMeshes | src/game/World.ts:17-53 | the floor, the wall loop and the platform append the layout's meshes and boxes in order |
| WorldLayout.World.CreateWalls | src/game/World.ts:41-50 | the wall loop appends the twenty walls and their boxes in loop order |
| WorldLayout.World.AddLights | src/game/World.ts:55-71 | the light statements append only to the scene, and append exactly the nine lights |
| WorldLayout.World.CreateWall | src/game/World.ts:74-90 | one wall mesh goes to the scene, its mesh to `objects` and its box to `colliders`, together, so alignment is kept |
| WorldLayout.World.CreatePlatform | src/game/World.ts:92-107 | the same for the platform, with its own material |
| WorldLayout.World.GetColliders | src/game/World.ts:109-111 | the list returned is the world's own collider object, not a copy |
| WorldLayout.World.Update | src/game/World.ts:113-118 | every collider k becomes the box of mesh k, the number of colliders and everything else stays, and aligned lists stay aligned |
| EnemyAI.Chase | src/game/Enemy.ts:26-37 | the chase move; no ensures of its own, characterised by `ChaseStep` |
| EnemyAI.AttackDue | src/game/Enemy.ts:40-41 | the attack test; no ensures of its own, characterised by `AttacksSpaced` and `Enemy.Update` |
| EnemyAI.Step | src/game/Enemy.ts:22-45 | one `update`; no ensures of its own, characterised by `ChaseStep`, `AttacksSpaced` and `RunLastAttack`, and reached by `Enemy.Update` |
| EnemyAI.Damage | src/game/Enemy.ts:52-57 | one `takeDamage`; no ensures of its own, characterised by `NoDeadFlag` and reached by `Enemy.TakeDamage` |
| EnemyAI.DieCalled | src/game/Enemy.ts:54 | whether a hit calls `die`; no ensures of its own, characterised by `NoDeadFlag` and `Enemy.TakeDamage` |
| EnemyAI.DieCalls | src/game/Enemy.ts:52-57 | how many of a series of `Damage` steps call `die`; no ensures of its own, characterised by `NoDeadFlag` |
| EnemyAI.ChaseStep | src/game/Enemy.ts:22-37 | inside detection range and away from the player, one update moves the enemy exactly `speed * delta`, along the line toward the player |
| EnemyAI.MoveToward | src/game/Enemy.ts:27-33 | a step of length m along the normalised offset is m long and leaves the distance minus m to go |
| EnemyAI.AttacksSpaced | src/game/Enemy.ts:40-44 | over any run of updates in which the clock does not run backwards within an update (`ClockForward`), the first attack comes more than 1000 ms after the start time and each later attack more than 1000 ms after the one before |
| EnemyAI.RunAttacksAreAttackTimes | src/game/Enemy.ts:40-44 | the attack stamps read off a run one `Step` at a time are exactly `AttackTimes`, the list `AttacksSpaced` is about |
| EnemyAI.RunLastAttack | src/game/Enemy.ts:40-44 | after a run of updates, `lastAttackTime` is the stamp of the last attack, or unchanged without one |
| EnemyAI.NoDeadFlag | src/game/Enemy.ts:52-57 | once health is at or below 0, every further `Damage` step that is not a heal calls `die` again, health stays at or below 0, and the enemy stays out of the scene |
| EnemyAI.Enemy.constructor | src/game/Enemy.ts:4-20 | a new enemy stands at its start position with health 100, `lastAttackTime` 0, and is in the scene |
| EnemyAI.Enemy.Update | src/game/Enemy.ts:22-45 | the new state is `Step` of the old: it chases only when distance < 15, and it attacks exactly when distance < 2 and `now − lastAttackTime > 1000`, then stamps `lastAttackTime`; both tests use the distance measured before the move |
| EnemyAI.Enemy.TakeDamage | src/game/Enemy.ts:52-57 | the new state is `Damage` of the old: health drops by exactly `amount`, and `die` runs exactly when the new health is at or below 0 (`DieCalled`) |
| EnemyAI.Enemy.Die | src/game/Enemy.ts:59-62 | the enemy is out of the scene |
| Hud.HealthBand | src/game/UI.ts:95-102 | exactly one band: green above 60, yellow in (30, 60], red at or below 30 |
| Hud.CssInjective | src/game/UI.ts:95-117 | the four colours are written as four different CSS texts, so the text a style holds determines its band |
| Hud.AmmoBand | src/game/UI.ts:110-117 | red exactly at 0, yellow exactly for non-zero counts up to 5 (negative counts included), white exactly above 5 |
| Hud.ClampHealth | src/game/UI.ts:91 | the stored health lies in [0, 100], equals the argument when in range, and is 0 below the range and 100 above it |
| Hud.NatText | src/game/UI.ts:108 | the text of a natural number is a non-empty run of digits with no leading zero |
| Hud.IntText | src/game/UI.ts:108 | the decimal text of an integer, with a leading '-' when negative; no ensures of its own, characterised by `IntTextRoundTrip` |
| Hud.AmmoText | src/game/UI.ts:108 | the counter text "current/max"; no ensures of its own, characterised by `AmmoTextRoundTrip` |
| Hud.IntTextRoundTrip | src/game/UI.ts:108 | reading an integer's text gives the integer back |
| Hud.AmmoTextRoundTrip | src/game/UI.ts:108 | the counter text "current/max" reads back as exactly (current, max) |
| Hud.FirstSlash | src/game/UI.ts:108 | finds the first '/' of a text, or reports that there is none |
| Hud.GameUI.constructor | src/game/UI.ts:8-52 | the display starts at health 100 with a full bar of colour "#00ff00" and the text "30/30" in "#fff" |
| Hud.GameUI.UpdateHealth | src/game/UI.ts:90-103 | the stored health is the clamped argument, the fill width is that value in percent, and the fill colour is the CSS text of its band; `Valid` (health in range, width, both colours and the counter text agreeing with the stored values) is kept |
| Hud.GameUI.UpdateAmmo | src/game/UI.ts:105-118 | both counts are stored as given, the text is "current/max", and the colour is the CSS text of the band of `current`; `Valid` is kept |
| Scenarios.SpawnRestsOnFloor | src/game/Player.ts:29-38 | on the world's collider list, whose first entry is the floor, the spawned player is at rest on the floor |
| Scenarios.SpawnedPlayerNeverWalks | src/game/Player.ts:212-239 | as written, a freshly spawned player stays on the spawn point for any number of frames of at most 0.25 s without a jump (`QuietFrame`), whatever keys are held |
| Scenarios.WalkForwardBlockedAsWritten | src/game/Player.ts:212-239 | as written, the first frame of holding 'w' after spawning leaves the player in place and zeroes its horizontal velocity |
| Scenarios.WalkForwardClear | src/game/World.ts:41-53 | the raised test box of that frame meets no wall and not the platform |
| Scenarios.WalkForwardCorrected | src/game/Player.ts:202-239 | under the corrected rule, that frame moves the player 2/15 down −z at 8 units per second, and it stays on the floor |
| Scenarios.WalkForwardFrameOk | src/game/Player.ts:173-204 | the demonstration frame meets `FrameOk`: forward and right vectors level, key direction and move vector of length 1 at scale 1, lerp factors in [0, 1] |
| Scenarios.WalkForwardFromRest | src/game/Player.ts:202-239 | the same on any obstacle list whose first box holds the spawned player and whose other boxes stay clear |
| Scenarios.LongFrameFallsThrough | src/game/Player.ts:137-244 | as written, a frame of 0.5 s from spawn moves the probe past every collider, so there is no ground contact: the player drops to y = −5.5, below the floor's top, with velocity.y = −15 and no jump |

## Left out

- `createHand`, the hand-bob and the mouse-driven hand offset: mesh construction and a `Date.now()`/`Math.sin` animation with no effect on movement.
- The keydown, keyup and click handlers and pointer lock: DOM wiring. The held keys of a frame are a `Keys` record, and the pointer-lock state is a parameter of `MouseMove`.
- The camera quaternion: `setFromEuler` in the mouse handler and `applyQuaternion` in `update`. The forward and right vectors of a frame are parameters.
- `normalize`, `distanceTo` and `Math.pow` are square roots and powers in floating point. Their results are parameters, bounded by `FrameOk` and `SenseOk`. Every coordinate is an exact real, so rounding is not modelled.
- The `rotation` parameter of `createWall`: no caller passes it, so every wall has rotation 0. `Box3.setFromObject` is modelled only for unrotated box meshes, as centre ± size/2.
- `console.log`, `lookAt`, the empty `attack` body and `mesh.parent.remove`: scene-graph and console calls. `Die` records only that the enemy left the scene.
- `AttackDamage` is declared and never read in the source, so no damage reaches the player.
- `createUI`'s DOM construction and styles other than the fill width and the two colours; the crosshair; `showHitMarker` and its `setTimeout` removal.
- Ammo counts are integers and health is a real. JavaScript's text for non-integer counts is not modelled.
- Hud.IntText: writes every integer in plain decimal digits. JavaScript writes numbers of magnitude 10^21 or more in exponent form ("1e+21"), and numbers above 2^53 are not exact integers there. So `IntText`, and through it `AmmoText` and `GameUI.UpdateAmmo`, match the source only for magnitudes below 10^21.
- `src/game/Game.ts` and `src/main.ts`: the render loop, the clock, the resize handler and the scene and renderer setup. Only the call at `src/game/Game.ts:48` is used, in `Scenarios`.
- PlayerControl.TargetComponentsBounded: assumes `FrameOk`, i.e. that the camera vectors have y = 0 and the move vector scale really is its reciprocal length. The source guarantees that through `normalize`, which is not modelled.
- PlayerControl.TargetSpeed: assumes `FrameOk`, for the same reason. It gives no speed when the move vector is zero, which only happens for camera vectors that are not unit and perpendicular, and `FrameOk` does not state that they are.
- PlayerControl.QuietFrameKeepsRest: covers only frames of at most 0.25 s from rest well inside the supporting box (`RestingOn`, `QuietFrame`). Longer frames and positions near an edge are not covered. From spawn, a frame longer than about 0.32 s moves the probe wholly below the floor, as `Scenarios.LongFrameFallsThrough` shows.
- PlayerControl.QuietVertical, PlayerControl.QuietFramesKeepRest, PlayerControl.CorrectedQuietFrameMoves, Scenarios.SpawnedPlayerNeverWalks: hold for frames of at most 0.25 s only, for the same reason.
- WorldLayout.World.Update: requires at least as many meshes as colliders, because the source would read past the end of `objects` otherwise. Every world the constructor builds meets this.

## Findings

| source | as written | input that shows it | evidently intended | confidence | as-written member | corrected member |
|---|---|---|---|---|---|---|
| src/game/Player.ts:212-230 | the horizontal test box keeps the collider's whole y-range, which reaches 0.1 below the feet, and `intersectsBox` counts touching | the spawned player at (0, 2, 5) on the floor, holding 'w' for one frame of 1/60 s: the test box's min.y is −0.1, below the floor's top at 0, so the floor blocks the move and the velocity is zeroed (and so on every later frame) | the floor under the player does not block walking, so the player moves 2/15 down −z | high on the cited lines alone; not executed | Scenarios.WalkForwardBlockedAsWritten | Scenarios.WalkForwardCorrected |
| src/game/World.ts:48 | wall colour `0x4a4a4a + i * 0x0a0a0a` for i up to 19 | i = 19 gives 0x1090908, which needs 25 bits; a three.js colour keeps the low 24 bits, 0x090908, a near-black wall after 0xfefefe at i = 18 | a gradient that brightens along the hallway and stops at white | medium (three.js keeps the low 24 bits of a colour number); not executed | WorldLayout.LastWallColorWraps | WorldLayout.CorrectedWallColorGradient |

Both findings are modelled beside the code as written:

- **The player.** `Tick` and the class `Player` follow the code as written, so lemmas about them describe the game as it is. `CorrectedTick` is the same frame with the test box starting 0.1 above the feet, `StepClearance` being that extra height. `PlayerControl.CorrectedQuietFrameMoves` proves that the corrected frame moves the player across a supporting box, grounded at the same height.
- **The walls.** `WallColor` is the written formula. `CorrectedWallColor` is the saturating gradient.
