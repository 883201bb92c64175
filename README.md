# PyWorld platformer core in Dafny

This project models the gameplay core of PyWorld, a pygame platformer. It covers:

- **The player character.** Keyboard steering, gravity, ground and wall jumps,
  swept collision against solid and one-way sprites, the floor and wall
  contact probes, riding moving platforms, the animation state machine,
  attacks and damage with cooldowns.
- **Level building.** How a level is built from its tile map: which sprites
  are created, at which depth, in which groups.
- **Drawing.** The camera group that draws the level in depth order, centred
  on the player.
- **Timers and player data.** The millisecond timer used for every cooldown,
  and the player's data: coins exchanged for lives, health that redraws the
  hearts.
- **The heads-up display.** Its hearts and its coin counter.
- **Other sprites.** The one-shot particle, the base sprite and the swinging
  spike ball.

The player's decisions and kinematics are pure functions in `PlayerRules`.
`Players.Player` is a class whose methods update its fields in place, one
phase of `update` per method. Each method's contract ties the new fields to
those functions. In the same way, `Levels.Level` builds its groups step by
step, and its methods are proved against `Levels.LevelSpawns`, the list of
everything a map produces. Lemmas about that list give, for example, the
size of the solid group.

Modelling choices:

- Positions and speeds are idealised reals. Python's `int()` on floats is
  `Geometry.Trunc`, which truncates toward zero. Python's float `%` is
  `Geometry.PyMod`, whose result takes the sign of the divisor.
- pygame's `colliderect` is `Geometry.Collide`: an overlap of non-empty
  interiors, so rectangles that only share an edge do not collide.
- The clock (`pygame.time.get_ticks`) is a parameter `now`, in milliseconds.
- The keyboard state is a parameter `keys`.
- Random draws are parameters: `wake` for a heart's one-in-501 activation,
  and one `jitter` in [-1, 1] per map object for the palms' animation speed.
- Sprite groups are sequences in insertion order, which is the iteration
  order of a pygame group.
- A sprite in a collision group is seen by the player as a `PlayerRules.Body`:
  its rectangle, its previous rectangle, whether it moves, and its velocity.
- Where the code and its documentation disagree, the model follows the code:
  - The camera follows the top-left corner of the player's hitbox, because
    the level passes the rectangle to `draw` (src/level.py:45).
  - A bounded spike ball overshoots its arc by up to one step before it
    turns back.
  - On a moving platform, the drawn rectangle lags the hitbox by one
    platform step, because the rectangle is centred before the platform
    moves the hitbox (src/player.py:93-95, 200).
- Defaults the code takes from files that are not part of this model:
  - A `Sprite` created without a depth gets the main depth (5).
  - An animated sprite created without a speed uses the standard animation
    speed.

## Model

| member | source | states |
|---|---|---|
| Geometry.FRect.Inflate | src/player.py:41 | `inflate(dx, dy)` keeps the centre and changes the width by dx and the height by dy |
| Geometry.CollideIsStrictOverlap | src/player.py:207 | for rectangles of positive size, `colliderect` holds exactly when both extents overlap strictly, so touching edges do not collide |
| Geometry.Trunc | src/player.py:211-212 | `int()` on a float truncates toward zero: the result is within one of the input, on the side of zero |
| Geometry.PyMod | src/player.py:366 | Python's float `%` with a positive divisor lies in [0, n) whatever the sign of the dividend |
| Geometry.WrappedIndex | src/player.py:366 | `int(frame % len(frames))` is always a valid frame index |
| Timers.Stopped | dist/main/_internal/src/timer.py:28-36 | `stop` makes a timer inactive with start time 0, or, for a looping timer, active again from `now` |
| Timers.Updated | dist/main/_internal/src/timer.py:38-49 | an update changes nothing before `duration` ms have passed; afterwards the timer stops, and the callback runs exactly when one is set and the start time is non-zero |
| Timers.StoppedStaysSilent | dist/main/_internal/src/timer.py:38-49 | a stopped non-looping timer stays stopped and calls nothing, under any sequence of clock readings |
| Timers.FiresAtMostOnce | dist/main/_internal/src/timer.py:38-49 | a non-looping timer calls its callback at most once over any sequence of updates |
| Timers.LoopingSelfStarts | dist/main/_internal/src/timer.py:35-36 | a looping timer that was never started starts itself, without calling back, at its first update with `now >= duration` |
| Timers.Timer.constructor | dist/main/_internal/src/timer.py:6-19 | a new timer keeps its duration, callback and loop flag, and is stopped with start time 0 |
| Timers.Timer.Start | dist/main/_internal/src/timer.py:21-26 | `start` makes the timer active from `now` |
| Timers.Timer.Stop | dist/main/_internal/src/timer.py:28-36 | the new state is `Stopped(loops, now)` |
| Timers.Timer.Update | dist/main/_internal/src/timer.py:38-49 | the new state and the number of callback calls are those of `Updated`, and an inactive timer keeps start time 0 |
| GameData.CoinExchange | dist/main/_internal/src/data.py:39-50 | coins kept plus 100 per life gained equals the assigned value; one life is gained exactly when the value is at least 100; values below 200 leave 0..99 coins |
| GameData.Data.constructor | dist/main/_internal/src/data.py:3-19 | 0 coins, 5 health, level 0, and one `create_hearts(5)` sent to the interface |
| GameData.Data.SetHealth | dist/main/_internal/src/data.py:26-32 | health takes the value, and the interface is asked to draw that many hearts |
| GameData.Data.SetCoins | dist/main/_internal/src/data.py:39-53 | coins and health follow `CoinExchange`, and the interface is then shown the stored amount |
| Enemies.Swing | src/enemies.py:36-48 | the angle advances by direction times step; a bounded ball turns to -1 at or past the end angle and to 1 below the start angle, the second test winning; a circular ball never turns |
| Enemies.SwingStaysNearArc | src/enemies.py:36-48 | a bounded ball stays within one step of its arc and, when outside it, heads back |
| Enemies.SpikeBall.constructor | src/enemies.py:9-34 | the ball starts at its start angle heading forwards, and is circular exactly when the end angle is -1 |
| Enemies.SpikeBall.Update | src/enemies.py:36-48 | the new angle and direction are those of `Swing` for a step of speed times dt |
| Groups.CameraOffset | src/groups.py:21-22 | the offset moves the target to the centre of the window |
| Groups.Insert | src/groups.py:25 | inserting into the draw order adds exactly one element |
| Groups.DepthSorted | src/groups.py:25 | the draw order has as many elements as the group |
| Groups.AtDepthAppend | src/groups.py:25 | the sprites at one depth in a concatenation are those of each part, in order |
| Groups.InsertKeepsElements | src/groups.py:25 | insertion adds the new sprite and keeps every other one |
| Groups.InsertKeepsSorted | src/groups.py:25 | insertion into a depth-sorted list keeps it sorted |
| Groups.InsertIsStable | src/groups.py:25 | insertion puts the sprite last among its depth and leaves other depths as they were |
| Groups.DepthSortedIsPermutation | src/groups.py:25 | `sorted(group, key=pos_z)` is a permutation of the group |
| Groups.DepthSortedIsSorted | src/groups.py:25 | the draw order never goes to a smaller depth |
| Groups.DepthSortedIsStable | src/groups.py:25 | sprites of equal depth keep the group's iteration order, as Python's stable sort does |
| Groups.Sprites.constructor | src/groups.py:9-16 | a new camera group is empty with a zero offset |
| Groups.Sprites.Draw | src/groups.py:18-29 | the offset becomes `CameraOffset(target)`, and blit i is the i-th sprite of the depth order at its top-left corner plus the offset |
| Sprites.Sprite.constructor | src/sprites.py:8-20 | a tile-sized rectangle with its top-left corner at `pos`, and a previous rectangle equal to it |
| Particles.Particle.constructor | src/particle.py:7-14 | the particle is centred on `pos`, drawn at the foreground depth, animates at the standard speed, and starts at frame 0 |
| Particles.Particle.Animate | src/particle.py:16-26 | the frame counter grows by speed times dt; while frames remain the image is the truncated counter, otherwise the particle is killed |
| Ui.HeartSpacing | src/ui.py:58-63 | consecutive hearts are one heart width plus 10 pixels apart, on the same row |
| Ui.Heart.constructor | src/ui.py:92-97 | a heart starts at frame 0, inactive and in the group |
| Ui.Heart.Animate | src/ui.py:99-111 | the frame advances at the animation rate; past the last frame the heart stops and rewinds to 0, keeping the last image shown |
| Ui.Heart.Update | src/ui.py:113-122 | an active heart advances its frame and shows the frame reached, or stops and rewinds at the end of the animation; an inactive one changes nothing but becomes active when the draw says so |
| Ui.UI.constructor | src/ui.py:12-36 | no hearts, 0 coins shown, and a stopped 1000 ms coin timer |
| Ui.UI.CreateHearts | src/ui.py:51-63 | every old heart is killed, and exactly max(count, 0) fresh inactive hearts are placed at `HeartSpot(i)` |
| Ui.UI.UpdateCoins | src/ui.py:82-87 | the amount is stored and the coin timer starts at `now` |
| Ui.UI.ShowText | src/ui.py:65-80 | the coin amount is drawn exactly while the coin timer is active |
| PlayerRules.HorizontalInput | src/player.py:114-140 | the normalised direction is -1 for left alone, 1 for right alone, and 0 for both or neither (each an if-and-only-if) |
| PlayerRules.NextState | src/player.py:333-354 | each of the seven states is chosen exactly under its condition on the floor contact, the attack flag, the wall contacts and the sign of the vertical velocity |
| PlayerRules.FallStep | src/player.py:160-167 | the half-step integration gives exactly the parabola: velocity gains gravity times dt, position gains `vy*dt + g*dt²/2` |
| PlayerRules.ChooseLeap | src/player.py:170-192 | a ground jump happens exactly when requested on the floor; a wall jump exactly when requested in the air against a wall and not blocked, pushing away from the touched wall |
| PlayerRules.SnapHorizontal | src/player.py:207-219 | one sprite's horizontal pass moves only x; a hitbox that does not overlap the sprite, or overlaps it from neither side, is left alone; one that came from the right ends flush against the sprite's right side; one that came from the left (and not from the right) ends flush against its left side; when both hold, the left test runs on the already moved hitbox and decides the final side |
| PlayerRules.SnapHorizontalSeparates | src/player.py:207-219 | when the approach side is recognised, the hitbox no longer overlaps the sprite |
| PlayerRules.ResolveHorizontal | src/player.py:205-219 | the pass over the whole group changes only the hitbox's x |
| PlayerRules.SnapVertical | src/player.py:222-238 | one sprite's vertical pass moves only y and zeroes the vertical velocity on any overlap; a hitbox that does not overlap the sprite, or overlaps it from neither side, is left alone; one that came from below ends under the sprite (6 pixels lower under a mover, `Under`); one that came from above (and not from below) ends standing on its top; when both hold, the above test runs on the hitbox already moved under and decides the final side |
| PlayerRules.SnapVerticalSeparates | src/player.py:222-238 | when the approach side is recognised, the hitbox ends either standing on the sprite's top or under its bottom (6 pixels lower under a mover), and no longer overlaps it |
| PlayerRules.ResolveVertical | src/player.py:205-238 | the pass over the whole group changes only y, and the vertical velocity is either kept or zeroed |
| PlayerRules.SnapSemi | src/player.py:246-253 | a one-way sprite that the hitbox overlaps after coming from above puts the hitbox's bottom on the sprite's top and zeroes a downward velocity (an upward or zero one is kept); in every other case hitbox and velocity are unchanged |
| PlayerRules.SnapSemiLands | src/player.py:246-253 | a player falling onto a one-way sprite from above ends on its top, no longer overlapping it, with zero vertical velocity |
| PlayerRules.ResolveSemi | src/player.py:240-253 | the one-way pass never pushes the player down and never stops an upward or resting velocity |
| PlayerRules.StandingIsGrounded | src/player.py:258-271 | a hitbox standing flush on a sprite does not collide with it, yet its down probe meets it |
| PlayerRules.CollideList | src/player.py:269-276 | `collidelist` returns the first index the probe meets, or -1 exactly when it meets none |
| PlayerRules.ComputeContacts | src/player.py:255-276 | floor contact holds exactly when the down probe meets a solid sprite, or a one-way sprite while not moving up; the wall contacts hold exactly when the side probes meet a solid sprite |
| PlayerRules.LastCarrierIndex | src/player.py:279-287 | the index found is of a moving sprite that meets the probe and no later sprite is one, or it is -1 exactly when no moving sprite meets the probe |
| PlayerRules.LastCarrier | src/player.py:279-287 | the loop over the sprites, which overwrites its answer at every moving sprite the probe meets, ends with `LastCarrierIndex` |
| Players.Player.constructor | src/player.py:13-79 | the player is idle at frame 0, its rectangle's top-left corner is at `pos`, the hitbox is centred in it and 76 by 36 smaller, and all five cooldowns are stopped |
| Players.Player.Update | src/player.py:81-106 | the previous hitbox is remembered, the jump request is consumed, and the final contact flags and the platform (`LastCarrierIndex` over solid then one-way sprites) describe the final hitbox |
| Players.Player.Act | src/player.py:86-95 | cooldowns, input, movement and platform riding keep the player's invariant and consume the jump request |
| Players.Player.React | src/player.py:97-103 | contacts and platform are those of the final hitbox; the state is `NextState`, with a finished ground attack returned to idle; the frame advances by the standard speed times dt; the attack flag stays set only while the frame is within the state's frame count; the image is a valid frame of that state |
| Players.Player.UpdateTimers | src/player.py:307-310 | each of the five cooldowns takes its `Timer.Update` state |
| Players.Player.Input | src/player.py:108-143 | during a wall jump only the jump request can change; otherwise the direction is `HorizontalInput`, right wins when both arrows are held, otherwise the held arrow sets the facing and none keeps it, Down starts the platform skip, and the attack starts only when its cooldown is over |
| Players.Player.StartAttack | src/player.py:289-299 | an attack starts from frame 0 and restarts its cooldown only when the cooldown is not running; otherwise nothing changes |
| Players.Player.Move | src/player.py:145-200 | the jump request is consumed, the drawn rectangle is centred on the hitbox, and the two jump cooldowns are either unchanged or started now |
| Players.Player.ApplyGravity | src/player.py:152-167 | wall sliding falls at a tenth of gravity with zero vertical velocity; otherwise position and velocity follow `FallStep`; x is untouched |
| Players.Player.ApplyJump | src/player.py:169-192 | per `ChooseLeap`: no change; or a ground jump at -800 that lifts the hitbox 1 pixel and blocks wall jumps; or a wall jump at -800 pushed away from the wall that starts the wall-jump cooldown |
| Players.Player.CheckCollisions | src/player.py:202-238 | the loop over the solid group gives `ResolveHorizontal` or `ResolveVertical` of the starting hitbox |
| Players.Player.CollideWith | src/player.py:206-238 | one iteration of the collision loop is `SnapHorizontal` or `SnapVertical` |
| Players.Player.CheckSemiCollisions | src/player.py:240-253 | while the platform skip runs nothing changes; otherwise the result is `ResolveSemi` over the one-way group |
| Players.Player.MovePlatform | src/player.py:301-305 | the platform found in the last contact check carries the hitbox by its current velocity times dt; without one the hitbox stays |
| Players.Player.CheckContact | src/player.py:255-287 | the contact flags are `ComputeContacts` and the platform is `LastCarrierIndex` of the down probe over solid then one-way sprites |
| Players.Player.HandleDamage | src/player.py:312-320 | outside the hit cooldown, health drops by one, the hearts are redrawn and the cooldown starts; inside it nothing changes |
| Players.Player.UpdateState | src/player.py:333-354 | the state becomes `NextState` of the contacts, the attack flag and the velocity |
| Players.Player.Animate | src/player.py:356-374 | the counter advances at the animation rate; a finished ground attack becomes idle; the image is the counter wrapped into the state's frames; the attack flag drops once the counter reaches the state's frame count |
| Levels.TileGroups | src/level.py:58-65 | every tile is drawn; terrain tiles exactly are solid, platform tiles exactly are one-way, and no tile hurts |
| Levels.TileDepth | src/level.py:69-76 | background and foreground tiles are drawn at the background-tile depth, terrain and platforms at the main depth |
| Levels.TileSpawns | src/level.py:79-82 | one tile per cell of the layer |
| Levels.TileSpawnAt | src/level.py:79-82 | the i-th tile sits at 64 times the i-th cell, with the layer's depth and groups |
| Levels.TerrainRepeat | src/level.py:85-88 | the second terrain pass makes one sprite per terrain cell |
| Levels.TerrainRepeatAt | src/level.py:85-88 | its i-th sprite is a solid tile at the i-th cell, at the main depth |
| Levels.DetailSpawns | src/level.py:91-102 | a "static" detail is a still sprite, any other detail is animated under its own name at the standard speed; each sits at its map position at the background-tile depth in the sprites group only, and a candle also gets a light shifted by (-20, -20) |
| Levels.ObjectGroups | src/level.py:113-137 | barrels and crates exactly are solid, palms exactly are one-way, saws and floor spikes exactly hurt |
| Levels.ObjectDepth | src/level.py:139-145 | names containing "bg" are drawn at the background-detail depth, others at the main depth |
| Levels.AnimationSpeed | src/level.py:147-151 | palms animate at the standard rate plus a jitter in [-1, 1]; everything else at the standard rate |
| Levels.ObjectSpawns | src/level.py:105-154 | the player object creates no sprite; any other object creates one at its map position, solid exactly when a barrel or crate; a barrel or crate is a still sprite under its own name at the main depth in the sprites and solid groups only; every other object is animated under its own name, at `ObjectDepth`, in `ObjectGroups`, at `AnimationSpeed` with the given jitter, and flipped exactly when an inverted floor spike |
| Levels.ObjectSolid | src/level.py:113-114 | one object adds one solid sprite exactly when it is a barrel or a crate |
| Levels.PlayerStart | src/level.py:105-109 | the player's start is the position of a "player" object after which no object is a player, and is absent exactly when there is none |
| Levels.Anchors | src/level.py:171-182 | a mover travels along x exactly when wider than tall; its path runs the length of that side through the rectangle's centre |
| Levels.MoverGroups | src/level.py:164-169 | a moving platform is one-way exactly when flagged as a platform, and it hurts otherwise; it is never solid |
| Levels.MoverSpawns | src/level.py:157-187 | a spike creates nothing; any other mover is created at the main depth, at its start anchor, in `MoverGroups`, and moves along the `Anchors` axis between the anchors at the object's speed |
| Levels.MembersAppend | src/level.py:56-187 | a group's members among two creation runs are those of each run, in order |
| Levels.TileCollisions | src/level.py:56-82 | among one layer's tiles, only terrain tiles are solid |
| Levels.RepeatCollisions | src/level.py:84-88 | every sprite of the second terrain pass is solid |
| Levels.DetailCollisions | src/level.py:91-102 | no background detail is solid |
| Levels.ObjectCollisions | src/level.py:105-154 | the solid objects are exactly the barrels and crates |
| Levels.MoverCollisions | src/level.py:157-187 | no moving object is solid |
| Levels.LayerCollisions | src/level.py:56-82 | the tile-layer pass adds one solid sprite per terrain cell |
| Levels.CollisionCount | src/level.py:52-187 | the solid group holds every terrain tile twice plus every barrel and crate |
| Levels.Level.constructor | src/level.py:14-29 | a new level holds exactly the sprites of `LevelSpawns`, each group holds its members in creation order, and the player start is `PlayerStart` |
| Levels.Level.Initialize | src/level.py:52-187 | starting empty, building adds exactly `LevelSpawns` in order and keeps every group consistent |
| Levels.Level.AddTileLayers | src/level.py:56-82 | the loop over the tile layers appends `LayersSpawns`, one layer after another |
| Levels.Level.Add | src/level.py:81-82 | one sprite is appended to the level and to each group it names |
| Levels.Level.AddTiles | src/level.py:79-82 | one layer's pass appends `TileSpawns` |
| Levels.Level.AddTerrainRepeat | src/level.py:85-88 | the second terrain pass appends `TerrainRepeat` |
| Levels.Level.AddDetails | src/level.py:91-102 | the detail pass appends every object's `DetailSpawns`, in order |
| Levels.Level.AddDetail | src/level.py:92-102 | one detail appends `DetailSpawns` |
| Levels.Level.AddObjects | src/level.py:105-154 | the object pass appends every object's `ObjectSpawns` and records the last player start |
| Levels.Level.AddObject | src/level.py:106-154 | one object appends `ObjectSpawns`, or records the player's start |
| Levels.Level.AddMovers | src/level.py:157-187 | the mover pass appends every object's `MoverSpawns` |

## Left out

- Drawing itself, fonts, images and the image flips are left out. Blits are
  listed as (sprite, position) pairs, and the player's facing is the flag
  `flip`.
- The player's white flicker while hit (`_flicker`, src/player.py:322-331)
  is left out. It only changes the image, through a sine of the clock.
- Floating-point rounding is left out. All arithmetic is exact.
- Contact probes are `pygame.Rect`, whose coordinates are integers. They are
  modelled with the hitbox's real coordinates.
- The trigonometric position of the spike ball (cos and sin of the angle) is
  left out. The model keeps its angle and direction.
- The drawing of a saw's path (src/level.py:189-199) is left out; the
  listing of it breaks off.
- `MovingSprite` and `AnimatedSprite` movement and animation are left out;
  their file is not part of this model. A mover is recorded by its anchors,
  axis and speed, and the player sees its velocity through
  `PlayerRules.Body`.
- The `Player` object itself is not built by `Levels.Level`, which records
  only its start position. src/level.py:108 calls `Player` without the data
  argument that src/player.py:13 requires.
- `Level.run`, `_update_pos` and `_update_surface` are left out. They call
  the group's update, then `Groups.Sprites.Draw` with the player's hitbox.
- `UI.update` (src/ui.py:38-49) is left out as one operation. It is the
  composition of `Timers.Timer.Update`, `Ui.Heart.Update` and
  `Ui.UI.ShowText`.
- `Players.Player.platform` holds the position of the carrying sprite in
  the solid group followed by the one-way group, not a reference to it.
  The carrier is read again each frame, so its current velocity is used.
  This is the same sprite only while no sprite joins or leaves those
  groups between frames, which nothing in the modelled core does.
- Random numbers are left out: `random.randint` and `uniform` become the
  parameters `wake` and `jitter`.
- Players.Player.Update: its own contract states only the remembered
  hitbox, the consumed jump and the final contacts and platform. The motion
  in between is stated by `Act`'s phases (`Input`, `Move`, `MovePlatform`)
  and is not composed into one formula.
- Players.Player.Act: states only the invariant and the consumed jump. The
  effect of each phase is in the contracts of the methods it calls.
- Players.Player.Move: states the centring and the cooldowns. The position
  is stated by `CheckCollisions`, `ApplyGravity`, `ApplyJump` and
  `CheckSemiCollisions`, and not composed.
- Geometry.PyMod: states the range [0, n) of the result. It does not state
  that `x - r` is a whole multiple of `n`.
- Levels.TileSpawns: its contract gives the length. The content of each
  element is in `Levels.TileSpawnAt`.
- Levels.TerrainRepeat: its contract gives the length. The content of each
  element is in `Levels.TerrainRepeatAt`.
- Frame images are left out. The player keeps a positive frame count per
  state, and each heart keeps the frame count and width of the heart image.
