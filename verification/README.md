# Simple Pygame Platformer — a verified model of its game logic

The platformer is a single-screen pygame game. A player sprite runs left
and right, jumps and falls under gravity onto platforms. Some platforms
oscillate horizontally, enemies bounce between the screen edges, and
overlapping an enemy ends the game. The game has three states:

- START: waits for SPACE.
- RUNNING: moves everything once per frame and adds one point per frame.
- GAME_OVER: waits for SPACE, then rebuilds the level and plays again.

This project models the game logic in Dafny, keeping the form the program
has. The sprites are classes whose methods update their fields in place:

- `Patrol.Platform`, `Patrol.Enemy` and `Kinematics.Player`.
- `Platformer.Game` holds the globals `game_state` and `score`, the player
  and the two sprite groups.

Every method is proved against a pure specification of the same step. The
properties the game relies on are proved about those specifications:

- `Patrol.PlatformStep` and `Patrol.EnemyStep` for the patrol moves.
- `Kinematics.Step` for one `Player.update`.
- `Kinematics.MoveBody` and `Kinematics.JumpBody` for `move` and `jump`.
- `Platformer.OnEvent` for one event and `Platformer.NextTick` for the
  RUNNING tick.

What is proved:

- Platforms and enemies stay inside their patrol invariants forever.
- Only the first platform the player overlaps can move the player.
- The player always ends an update between the screen's ceiling and floor,
  with its fall speed capped.
- `jump` cannot fire in mid air.
- Outside RUNNING, only SPACE does anything.
- A RUNNING tick ends the game exactly when the moved player overlaps a
  moved enemy, and it always scores one point.
- A whole-session invariant holds of the initial session and survives every
  event and every tick.

Units and numbers:

- Coordinates are pygame's integer pixels, with y growing downward.
- The vertical speed, a float in the program, is held exactly in tenths of
  a pixel per frame: gravity 0.8 is 8, the fall cap 10 is 100, and the jump
  speed -15 is -150.
- Moving by a fractional speed cuts the fraction off toward zero
  (`Kinematics.PixelOf`).

Standing on a platform (`Kinematics.StandingFlickers`,
`Level.SpawnSettlesOnGround`):

- A player at rest with its feet exactly on a platform's top does not stay
  on the ground, whatever the other platforms of the group, as long as none
  of them overlaps the player and none before this one in the group
  overlaps it one pixel lower. The update adds 0.8 to y, which is cut off, so the player
  has not moved. Touching rectangles do not collide, so nothing sets
  on_ground, and the player is airborne for that frame.
- The next update adds 1.6, moves the player down one pixel into the
  platform, and lands it back where it stood.
- So a player standing still is on the ground only every other frame, and
  a jump pressed on an airborne frame does nothing.
- The spawn point is such a place: the player spawns with its feet on the
  ground platform, is airborne after the first frame and lands on the
  second.

Releasing an arrow key (`Platformer.ReleaseStopsOnlyActiveDirection`):

- The comment at pygamebs.py:282 says releasing an arrow stops the player
  only if no other key is pressed.
- The code does not track which keys are held. It stops the player whenever
  the released arrow matches the current direction of motion.
- The model follows the code.

Modules, one file each:

- `config.dfy`: the constants.
- `geometry.dfy`: rectangles and `colliderect`.
- `patrol.dfy`: platforms and enemies.
- `kinematics.dfy`: the player.
- `level.dfy`: `create_level`'s layout and the spawn point.
- `platformer.dfy`: the state machine, the event loop, the tick and the
  `Game` object.

## Model

| member | source | states |
|---|---|---|
| `Geometry.WithBottom` | pygamebs.py:88 | assigning `rect.bottom` puts the bottom edge at the given height and keeps x and the size |
| `Geometry.WithTop` | pygamebs.py:92 | assigning `rect.top` puts the top edge at the given height and keeps x and the size |
| `Geometry.Collide` | pygamebs.py:85 | `colliderect`: the two rectangles' interiors overlap on both axes; properties in `CollideSymmetric` and `TouchingDoesNotCollide` |
| `Geometry.HitsAny` | pygamebs.py:298 | `spritecollide(...)` is non-empty: the rectangle overlaps one of the group's; `HitsAnyExists` ties it to an overlap with some member |
| `Geometry.CollideSymmetric` | pygamebs.py:85 | `colliderect` does not depend on the order of its two rectangles |
| `Geometry.TouchingDoesNotCollide` | pygamebs.py:85-90 | a rectangle whose bottom rests on another's top (or whose top is on its bottom) does not collide with it, so a landed player stops colliding with its platform |
| `Geometry.HitsAnyExists` | pygamebs.py:298 | `spritecollide` is non-empty iff some rectangle of the group overlaps the player's |
| `Patrol.NewPlatform` | pygamebs.py:120-131 | the state a new platform starts in: its rect at (x, y), start_x = x, speed 1, direction 1; `NewPlatformInv` shows it inside the patrol invariant |
| `Patrol.PlatformStep` | pygamebs.py:133-138 | one `Platform.update`: move by speed times direction, then turn if out of range; its properties are `PlatformStepMoves`, `PatrolInvStep`, `PlatformKeepsRow` and `PlatformFirstLeg` |
| `Patrol.PlatformStepMoves` | pygamebs.py:133-138 | a static platform never changes; a moving one shifts x by speed times direction and keeps everything else except direction; direction flips iff the new x is outside [start_x, start_x + move_range]; a direction of ±1 stays ±1 |
| `Patrol.PatrolInvStep` | pygamebs.py:133-138 | one update keeps the oscillation invariant: at most one pixel outside the range, and heading back whenever outside |
| `Patrol.NewPlatformInv` | pygamebs.py:120-131 | a platform built with a non-negative range starts inside the invariant |
| `Patrol.PlatformInvForever` | pygamebs.py:133-138 | the invariant holds after any number of updates |
| `Patrol.MovingPlatformStaysNearRange` | pygamebs.py:127-138 | a moving platform built at x stays in [x - 1, x + move_range + 1] and on its row forever |
| `Patrol.PlatformKeepsRow` | pygamebs.py:133-138 | updates never change a platform's y, size, moving flag, start, range or speed |
| `Patrol.PlatformFirstLeg` | pygamebs.py:128-138 | a new moving platform walks right one pixel per frame and turns on frame move_range + 1, one pixel past its range |
| `Patrol.Platform.constructor` | pygamebs.py:120-131 | a new platform sprite is in the state `NewPlatform` describes: its rect at (x, y), start_x = x, speed 1, direction 1 |
| `Patrol.Platform.Update` | pygamebs.py:133-138 | the sprite's new state is one `PlatformStep` of its old state |
| `Patrol.StepPlatforms` | pygamebs.py:293 | `platforms.update()`: the same number of platforms, each updated once, in order |
| `Patrol.PlatformRects` | pygamebs.py:84-85 | the rectangles the player's collision loop sees, one per platform, in order |
| `Patrol.NewEnemy` | pygamebs.py:142-150 | the state a new enemy starts in: its rect at (x, y), speed 2, direction 1; `EnemyStaysOnScreen` follows it forever |
| `Patrol.EnemyStep` | pygamebs.py:152-156 | one `Enemy.update`: move by speed times direction, then turn at a screen edge; its properties are `EnemyStepMoves` and `EnemyInvStep` |
| `Patrol.EnemyStepMoves` | pygamebs.py:152-156 | an enemy shifts x by speed times direction and keeps y, size and speed; direction flips iff the moved rect touches or passes a screen edge; ±1 stays ±1 |
| `Patrol.EnemyInvStep` | pygamebs.py:152-156 | one update keeps the bounce invariant: at most one pixel past an edge, and heading back when at or past it |
| `Patrol.EnemyInvForever` | pygamebs.py:152-156 | the bounce invariant holds after any number of updates |
| `Patrol.EnemyStaysOnScreen` | pygamebs.py:142-156 | an enemy built strictly inside the screen stays within one pixel of it forever |
| `Patrol.Enemy.constructor` | pygamebs.py:142-150 | a new enemy sprite is in the state `NewEnemy` describes: its rect at (x, y), speed 2, direction 1 |
| `Patrol.Enemy.Update` | pygamebs.py:152-156 | the sprite's new state is one `EnemyStep` of its old state |
| `Patrol.StepEnemies` | pygamebs.py:294 | `enemies.update()`: the same number of enemies, each updated once, in order |
| `Patrol.EnemyRects` | pygamebs.py:298 | the rectangles `spritecollide` tests against, one per enemy, in order |
| `Kinematics.FreshBody` | pygamebs.py:51-67 | the player as `__init__(x, y)` leaves it: at (x, y), 30 by 40, at rest, not on the ground; `Player.constructor` and `Player.Init` produce it |
| `Kinematics.PixelOf` | pygamebs.py:80 | storing a fractional coordinate keeps the whole pixels, cutting the fraction toward zero for both signs |
| `Kinematics.Integrate` | pygamebs.py:70-81 | steps 1-3 of `update`: x moves by vel_x; the fall speed grows by gravity, and is set to exactly the cap when it would pass it; y moves by the new fall speed, the fraction cut off; on_ground is cleared; size and vel_x are kept |
| `Kinematics.ResolveOne` | pygamebs.py:85-93 | against one platform: no overlap or no vertical speed changes nothing; falling lands the player on the platform's top, stops it and sets on_ground; rising puts its head under the platform's bottom and stops it; x, size and vel_x are kept |
| `Kinematics.ClampToScreen` | pygamebs.py:95-103 | step 5: the player ends between ceiling and floor; past the floor it is put with its bottom at 600 and stopped; above the ceiling it is put with its top at 0 and stopped; on_ground is set iff it was already set or the floor was passed; vertical speed is kept or zeroed; a player already on screen is untouched |
| `Kinematics.Resolve` | pygamebs.py:84-93 | step 4: the collision loop over the platforms in group order, each seeing the earlier corrections; `ResolveFirstHit` shows only the first overlapped platform acts |
| `Kinematics.Step` | pygamebs.py:69-103 | one whole `Player.update`; its properties are `StepKinematics`, `StepInScreen`, `StepOnGround` and `StandingFlickers` |
| `Kinematics.FirstHit` | pygamebs.py:84-85 | the index of the first platform in group order that the player overlaps, or the number of platforms if none |
| `Kinematics.ResolveOnlyAt` | pygamebs.py:84-93 | if platform k is the first one overlapped, the whole collision loop equals resolving against platform k alone |
| `Kinematics.ResolveFirstHit` | pygamebs.py:84-93 | the collision loop adjusts the player at most once, against the first platform it overlaps; later platforms change nothing |
| `Kinematics.StepKinematics` | pygamebs.py:69-103 | after a whole `update` the fall speed is capped, x has moved by exactly vel_x with no horizontal correction, and the size and vel_x are unchanged |
| `Kinematics.StepInScreen` | pygamebs.py:95-103 | after a whole `update` the player lies between the screen's ceiling and floor |
| `Kinematics.StepOnGround` | pygamebs.py:81-99 | on_ground holds after an update iff the player was falling into some platform, or passed the floor after resolution |
| `Kinematics.StandingFlickers` | pygamebs.py:74-99 | a player at rest with its feet on a platform of any platform list (the first one it overlaps one pixel lower) is airborne after one update (the 0.8 is cut off and touching is not colliding), so a jump then does nothing, and it is back on the ground, where it stood, after the next |
| `Kinematics.MoveBody` | pygamebs.py:105-111 | `Player.move` on the player's state; its properties are `MoveSetsVelocity` and `MoveLastWins` |
| `Kinematics.MoveSetsVelocity` | pygamebs.py:105-111 | `move` changes only vel_x: exactly -PLAYER_SPEED for "left", +PLAYER_SPEED for "right", zero for "stop"; any other string changes nothing |
| `Kinematics.MoveLastWins` | pygamebs.py:105-111 | a later "left", "right" or "stop" overrides whatever move came before |
| `Kinematics.JumpBody` | pygamebs.py:113-116 | `Player.jump` on the player's state; its properties are `JumpGate` |
| `Kinematics.JumpGate` | pygamebs.py:113-116 | `jump` has an effect iff the player is on the ground; it sets the jump speed and clears on_ground, keeps position and vel_x, and a second jump in the same frame does nothing |
| `Kinematics.Player.constructor` | pygamebs.py:51-67 | a new player sprite is at (x, y) with the player's size, at rest, not on the ground |
| `Kinematics.Player.Init` | pygamebs.py:197 | calling `__init__` again on the same player puts it back in the fresh state at the given point |
| `Kinematics.Player.Update` | pygamebs.py:69-103 | the in-place update, with its loop over the platforms, leaves the player in `Step` of its old state against the platforms' rectangles |
| `Kinematics.Player.ResolveAgainst` | pygamebs.py:84-93 | one pass of the collision loop leaves the player in `ResolveOne` of its old state |
| `Kinematics.Player.Move` | pygamebs.py:105-111 | the player's new state is `MoveBody` of the old one |
| `Kinematics.Player.Jump` | pygamebs.py:113-116 | the player's new state is `JumpBody` of the old one |
| `Level.LevelPlatforms` | pygamebs.py:172-182 | the states of the six platforms `create_level` adds, in insertion order; `LevelWellFormed` states their shape |
| `Level.LevelEnemies` | pygamebs.py:185-187 | the states of the three enemies `create_level` adds, in insertion order; `LevelWellFormed` states their shape |
| `Level.Spawn` | pygamebs.py:197 | the player as `reset_game` leaves it, at (50, 540); `LevelWellFormed` and `SpawnSettlesOnGround` state its place |
| `Level.LevelWellFormed` | pygamebs.py:161-187 | the level has six platforms, exactly the last two moving, and three enemies; each starts inside its patrol invariant; the player spawns at (50, 540), at rest, inside the screen |
| `Level.SpawnSettlesOnGround` | pygamebs.py:69-99 | from the spawn point above the ground platform the first update leaves the player where it was and airborne, and the second lands it on the ground platform |
| `Level.JumpFromSpawn` | pygamebs.py:113-116 | a jump from the spawn point rises 15 pixels in the first frame, hits no platform of the level, and leaves the player airborne with the jump speed plus one frame of gravity |
| `Platformer.ResetSession` | pygamebs.py:190-204 | `reset_game` on the session: score 0, the spawn body, the level rebuilt, the state kept; `SpaceRestarts` shows its effect |
| `Platformer.Initial` | pygamebs.py:45-46 | the session `main` enters its loop with (START, score 0, after `reset_game`); `InitialInv` shows it satisfies the invariant |
| `Platformer.OnEvent` | pygamebs.py:262-286 | one event of the event loop; its properties are `SpaceStarts`, `SpaceRestarts`, `IdleIgnoresInput`, `RunningInputReachesPlayer`, `ReleaseStopsOnlyActiveDirection` and `OnEventPreservesInv` |
| `Platformer.OnEvents` | pygamebs.py:262 | the frame's event queue in arrival order; `OnEventsPreservesInv` shows it keeps the invariant |
| `Platformer.MoveSprites` | pygamebs.py:292-295 | the sprite updates of a RUNNING frame: platforms, enemies, then the player against the moved platforms; used by `NextTick` |
| `Platformer.NextTick` | pygamebs.py:289-303 | the game logic of one frame; its properties are `TickIdleUnlessRunning`, `TickScoresAndChecksEnemies` and `NextTickPreservesInv` |
| `Platformer.NextFrame` | pygamebs.py:261-303 | one pass of the main loop, events then tick; `NextFramePreservesInv` shows it keeps the invariant |
| `Platformer.SpaceStarts` | pygamebs.py:266-270 | SPACE on the start screen switches to RUNNING and changes nothing else |
| `Platformer.SpaceRestarts` | pygamebs.py:266-270 | SPACE on the game-over screen switches to RUNNING with score 0, the player back at the spawn point at rest, and the level rebuilt |
| `Platformer.IdleIgnoresInput` | pygamebs.py:266-270 | outside RUNNING, every event except SPACE leaves the session unchanged |
| `Platformer.RunningInputReachesPlayer` | pygamebs.py:272-286 | while RUNNING an event changes only the player: the arrows set vel_x, UP and Z jump, and SPACE, any other key press and non-key events do nothing |
| `Platformer.ReleaseStopsOnlyActiveDirection` | pygamebs.py:281-286 | releasing an arrow stops the player only if it is moving that way; releasing any other key does nothing; only vel_x can change |
| `Platformer.TickIdleUnlessRunning` | pygamebs.py:289-290 | outside RUNNING a frame moves nothing and scores nothing |
| `Platformer.TickScoresAndChecksEnemies` | pygamebs.py:289-303 | a RUNNING tick adds exactly one point, even on the losing frame; it keeps the group sizes; it ends the game iff the moved player overlaps some moved enemy |
| `Platformer.InitialInv` | pygamebs.py:257-258 | the initial session satisfies the session invariant |
| `Platformer.OnEventPreservesInv` | pygamebs.py:262-286 | every event, in every state, keeps the session invariant |
| `Platformer.NextTickPreservesInv` | pygamebs.py:289-303 | every tick keeps the session invariant: the player stays on screen with its size, a capped fall speed and one of the three horizontal speeds, and every sprite stays in its patrol invariant |
| `Platformer.OnEventsPreservesInv` | pygamebs.py:262 | a frame's whole event queue keeps the session invariant |
| `Platformer.NextFramePreservesInv` | pygamebs.py:261-303 | each pass of the main loop keeps the session invariant |
| `Platformer.NewPlatforms` | pygamebs.py:172-182 | builds six new, distinct platform sprites in the states of the level layout, in insertion order |
| `Platformer.NewEnemies` | pygamebs.py:184-187 | builds three new, distinct enemy sprites in the states of the level layout, in insertion order |
| `Platformer.Game.constructor` | pygamebs.py:252-258 | the game object `main` builds is consistent and in the initial session: START, score 0, the player at the spawn point, the level built |
| `Platformer.Game.CreateLevel` | pygamebs.py:161-187 | both groups are emptied and refilled with new sprites in the level's states, in order; the game object is consistent again |
| `Platformer.Game.Reset` | pygamebs.py:190-204 | the session becomes `ResetSession` of the old one: score 0, player re-initialised in place at the spawn point, level rebuilt, state kept |
| `Platformer.Game.HandleEvent` | pygamebs.py:262-286 | handling one event moves the session by `OnEvent` and keeps the game object consistent |
| `Platformer.Game.Tick` | pygamebs.py:289-303 | the game logic of one frame moves the session by `NextTick` and keeps the game object consistent |
| `Platformer.Game.RunningTick` | pygamebs.py:292-303 | in RUNNING: both groups stepped, the player stepped against the moved platforms, the state GAME_OVER iff it overlaps an enemy, and one point added |
| `Platformer.Game.Conclude` | pygamebs.py:297-303 | the state becomes GAME_OVER iff the player overlaps an enemy (otherwise it is kept), and the score grows by one |
| `Platformer.Game.UpdateSprites` | pygamebs.py:292-295 | platforms, then enemies, then the player against the platforms' new rectangles, each updated once |
| `Platformer.Game.UpdatePlayer` | pygamebs.py:295 | the player is updated against the platform group as it stands |
| `Platformer.Game.HitsEnemy` | pygamebs.py:298 | the result is true iff the player's rectangle overlaps some enemy's rectangle |
| `Platformer.Game.UpdatePlatforms` | pygamebs.py:293 | every platform sprite is updated once in place, and the group's abstract state becomes `StepPlatforms` of the old one |
| `Platformer.Game.UpdateEnemies` | pygamebs.py:294 | every enemy sprite is updated once in place, and the group's abstract state becomes `StepEnemies` of the old one |
| `Platformer.Game.Frame` | pygamebs.py:261-303 | one pass of the main loop, the pending events in order and then the tick, moves the session by `NextFrame` |

## Left out

- Drawing: the screens, text, fonts, colours and sprite images (lines 15-23, 37-41, 56-60 and 207-243), `all_sprites` (which only serves drawing), and the frame cap `clock.tick(60)`. None of these influence the game state.
- The `running` flag and QUIT: leaving the loop, `pygame.quit()` and `sys.exit()` are process control. QUIT is an `OtherEvent` with no effect on the session, as in the frame where it arrives.
- Events come from the caller as a sequence. Keys are a datatype naming only the keys the game reacts to; raw key codes and other event types are not modelled.
- Floating point: `vel_y` is an exact count of tenths. The binary rounding of repeated `+= 0.8` is not modelled. The float speed can fall just short of a whole number: ten frames of gravity from rest give 7.999999999999999, and a jump passes through -10.999999999999996, -6.999999999999995 and -2.9999999999999956. Truncation then loses a pixel only where y is too small to absorb the rounding error: falling at 7.999999999999999 from y = 0, or rising while the exact y + vel_y is negative. Falling from y ≥ 1, or rising to an exact y + vel_y ≥ 0, the float result truncates to the model's pixel. So the difference shows only next to the ceiling: a player at y = 0 with the speed 7.999999999999999 moves 7 pixels where the model moves 8, and a jumping player at y = 10 with the speed -10.999999999999996 ends at y = 0 keeping its speed, where the model clamps it and stops it.
- `Kinematics.PixelOf`: storing a float into a pygame `Rect` field is modelled as truncation toward zero. pygame's exact conversion rule for fractional values is outside the model.
- pygame `Rect` fields are 32-bit C integers. The model's integers are unbounded, so overflow is not modelled. Only the player's x is unbounded in the game: there is no horizontal clamp, and `Kinematics.StepKinematics` shows that x moves by vel_x every frame. Holding an arrow key would overflow it after about 4.3·10^8 frames, roughly 83 days at 60 frames per second. Every other coordinate stays within the screen or a patrol range, and the score is a Python integer, which does not overflow.
- `Geometry.Collide`: pygame's `colliderect` reports no collision for a rectangle of zero width or height. The model does not special-case this; every rectangle in the game has a positive size.
- Sprite groups are sequences in insertion order. pygame's `Group` iterates in that order and holds each sprite once; the `Game` object keeps this as a distinctness invariant.
- The `random` import is unused by the program.
