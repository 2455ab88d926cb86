# ECS arcade game: per-frame gameplay core in Dafny

This project models the gameplay core of a small 2D entity-component-system
game: a player steered by the keyboard, an enemy that patrols left and
right, a camera that follows the player, sprite-sheet animation, a tile
map, and a knock-down point counter. Every per-frame system is a transition
on plain component records (Tag, Transform, Movement, Camera, Sprite) held
in a registry, run in place the way the game's systems change components
through references.

Modules:

- `CInt` (cint.dfy): C++ `int` semantics the model needs: `/` and `%` that
  truncate toward zero, and a `Uint32` stored into an `int`.
- `Components` (components.dfy): the five component records, their default
  member initialisers, and aggregate initialisation. A record is filled in
  declaration order from a prefix of values and the rest keep their defaults.
- `Rects` (rects.dfy): the rectangle arithmetic of the two render passes.
  This covers sprite source and destination rectangles, decoding a
  tile-index pixel into an atlas rectangle, and where each map tile is drawn.
- `Input` (input.dfy): the player input state machine. It is a pure
  transition on the player's Movement and Sprite and the global
  `playedAction` latch. The missing `break`s in the key-release switch are
  reproduced case label by case label.
- `Gameplay` (gameplay.dfy): the update rules as functions. These are the
  player's reject-not-clamp move, the enemy's patrol, the camera follow with
  independent axes, and the modular animation-row advance. Lemmas carry each
  rule over any number of frames.
- `Systems` (systems.dfy): the `Scene` registry (a sequence of entities and
  the player, enemy and camera handles), the three entity setup systems, and
  the input, movement, camera-follow, animation and sprite-render systems.
  Each is an imperative method proved equal to the matching rule above.
- `TileMap` (tilemap.dfy): the tile map system as a class over an array of
  rectangles. Its setup loop decodes the index image and its nested render
  loop is proved to produce the row-major layout.
- `KnockDown` (knockdown.dfy): the two-counter point system.

Inputs the core takes from outside are parameters:

- The frame's time step is `travel: int -> int`, the whole-unit
  displacement a velocity produces this frame.
- The clock reading is `current`, a `Uint32` in milliseconds.
- The animation frames elapsed per sprite is `framesFor: Sprite -> int`.
- Polled events are `Input.Event` values.
- The tile-index image is a row-major `seq<bv32>` of pixels.

Draw calls are returned as `Blit` values (texture, source rectangle,
destination rectangle) instead of being issued.

Three behaviours one might expect of the game differ in the code, and the
model follows the code:

- Releasing o or p does not zero vertical velocity. The fall-through in the
  release switch runs downward only, from w into s and from s into o.
  `Input.ActionReleaseKeepsVelocity` states it.
- An animation row is not always inside `[0, frames)`. The input system and
  the patrol set rows 2 and 3 on sprites that have 2 frames. The next
  animation advance brings the row back into range
  (`Gameplay.AdvanceRestoresRange`). The range is only preserved once the
  row is in it (`Gameplay.RowStaysInRange`). For the same reason the input
  system's latch invariant (`Input.LatchImpliesActionRow`) holds for the
  input system alone: the animation update rewrites the row every tick
  without looking at the latch.
- The patrol waypoints do not advance the row by one. They set it to 2 (at
  x = 700) and 3 (at x = 1000).

## Model

| member | source | states |
|---|---|---|
| `CInt.Div` | src/Scene/Systems.hpp:220-221 | C++ `int` division: the remainder is smaller than the divisor in magnitude and has the dividend's sign (used for `vw / 2`, `vh / 2`) |
| `CInt.Rem` | src/Scene/Systems.hpp:274 | C++ `%`: sign of the dividend, magnitude below the divisor, `a == b*Div(a,b) + r`, equal to Dafny's `%` on non-negative operands |
| `CInt.FromUint32` | src/Scene/Systems.hpp:275 | a `Uint32` stored into an `int` is the same value modulo 2^32, in the signed 32-bit range, unchanged below 2^31 |
| `Components.TransformOf` | src/Scene/Components.hpp:11-14 | aggregate init of a Transform fills x, y in order and defaults the rest to 0 |
| `Components.MovementOf` | src/Scene/Components.hpp:16-19 | aggregate init of a Movement fills vx, vy in order and defaults the rest to 0 |
| `Components.CameraOf` | src/Scene/Components.hpp:21-27 | aggregate init of a Camera fills zoom, vw, vh, ww, wh in order; defaults zoom 1, sizes 0 |
| `Components.SpriteOf` | src/Scene/Components.hpp:29-37 | aggregate init of a Sprite fills the seven fields in declaration order; the rest keep their defaults |
| `Components.DefaultTransformAndMovement` | src/Scene/Components.hpp:11-19 | a default Transform is (0, 0) and a default Movement has zero velocity |
| `Components.DefaultCamera` | src/Scene/Components.hpp:21-27 | a default Camera has zoom 1 and zero viewport and world sizes |
| `Components.DefaultSprite` | src/Scene/Components.hpp:29-37 | a default Sprite: sheet 0, 1 frame, duration 0, cell (0, 0), size 24, lastUpdate 0 |
| `Components.PlayerSpriteInitialiser` | src/Scene/Systems.hpp:25 | `{0,2,15,0,0,50}` means frames 2, duration 15, size 50, lastUpdate left 0 |
| `Components.FieldsRoundTrip` | src/Scene/Components.hpp:11-37 | building any component from all its fields and reading it back gives the same record |
| `Rects.SpriteSource` | src/Scene/Systems.hpp:293-296 | the source rectangle is the size-by-size cell whose column and row are the sprite's x and y |
| `Rects.SpriteDestination` | src/Scene/Systems.hpp:292-297 | the destination is camera relative (screen + camera = world position) and `zoom * size` wide and high, so at least `size` when zoom and size are positive |
| `Rects.DecodeTile` | src/Scene/Systems.hpp:384-387 | a decoded tile is 16x16, x and y are multiples of 16 in [0, 4080], and x/16, y/16 are the pixel's bits 16-23 and 8-15 |
| `Rects.DecodePackedPixel` | src/Scene/Systems.hpp:384-387 | decoding a pixel painted with (red, green) gives (16*red, 16*green), whatever alpha and blue |
| `Rects.TileDestination` | src/Scene/Systems.hpp:397-409 | tile (i, j) is drawn at (60*j, 16*zoom*i) minus the camera, 16*zoom wide and high |
| `Rects.TileStridesDiffer` | src/Scene/Systems.hpp:347 | the horizontal stride 60 never equals the vertical stride 16*zoom; tiles leave gaps for zoom <= 3 and overlap for zoom >= 4 |
| `Input.OnKeyDown` | src/Scene/Systems.hpp:95-124 | a/d set vx to -400/400 and w/s set vy to -400/400, leaving the other axis, the sprite and the latch; o/p leave the velocity and every sprite field but the row, set the latch, and set row 2/3 only when the latch was clear (otherwise nothing changes); a key the switch does not list changes nothing; the column is never touched |
| `Input.OnKeyUp` | src/Scene/Systems.hpp:125-152 | following the fall-through: vx becomes 0 exactly on a/d, vy becomes 0 exactly on w/s, the latch is cleared exactly on w, s, o and p, and the sprite is untouched |
| `Input.Face` | src/Scene/Systems.hpp:154-159 | the column becomes 1 for vx < 0, 0 for vx > 0, and is kept for vx == 0; nothing else changes |
| `Input.Step` | src/Scene/Systems.hpp:95-159 | one event touches only velocity, row, column and latch, and keeps the {-400, 0, 400} velocity grid and the latch-shows-action invariant |
| `Input.KeyDownSetsOneAxis` | src/Scene/Systems.hpp:95-109 | a/d/w/s press sets exactly one axis to -400/400/-400/400, other axis, row and latch unchanged |
| `Input.ActionKeyLatches` | src/Scene/Systems.hpp:110-122 | o/p press sets row 2/3 and the latch only when the latch was clear; velocity unchanged; latch set afterwards |
| `Input.KeyUpEffects` | src/Scene/Systems.hpp:125-151 | a/d release zero only vx; w/s release zero vy and clear the latch (fall-through); o/p release only clear the latch; other keys change nothing |
| `Input.OtherKeyPress` | src/Scene/Systems.hpp:95-124 | pressing a key the switch does not list only refreshes the facing column |
| `Input.OtherEventChangesNothing` | src/Scene/Systems.hpp:95-159 | a non-key event only refreshes the facing column |
| `Input.FacingFollowsVelocity` | src/Scene/Systems.hpp:154-159 | after any event the column is 1 if vx < 0, 0 if vx > 0, and unchanged if vx == 0 |
| `Input.VelocityStaysOnGrid` | src/Scene/Systems.hpp:93-151 | over any event sequence each velocity axis stays in {-400, 0, 400} |
| `Input.LatchImpliesActionRow` | src/Scene/Systems.hpp:110-148 | over any event sequence handled by the input system alone, while the latch is set the row is 2 or 3 (the animation update can break this; see the introduction) |
| `Input.ReleaseDoesNotResumeHeldKey` | src/Scene/Systems.hpp:104-141 | pressing w, pressing s, releasing s leaves vy at 0 although w is held |
| `Input.MovementReleaseRearmsAction` | src/Scene/Systems.hpp:110-143 | press o, release w, press p: the fall-through clears the latch so p sets row 3 |
| `Input.ActionReleaseKeepsVelocity` | src/Scene/Systems.hpp:142-148 | releasing o or p leaves the velocity unchanged |
| `Gameplay.MovePlayer` | src/Scene/Systems.hpp:174-180 | the candidate pair (x + dx, y + dy) is committed whole exactly when it lies strictly inside 130<x<1200, 245<y<890, and otherwise the position is unchanged (no clamping); a player inside stays inside |
| `Gameplay.PlayerStaysInPlayfield` | src/Scene/Systems.hpp:175-180 | a player starting strictly inside the playfield stays inside over any number of frames, each with its own velocity and time step |
| `Gameplay.PlayerRejectNotClamp` | src/Scene/Systems.hpp:175-180 | (150,250)+(500,0) commits to (650,250); (1150,250)+(500,0) and a pair with only y out of range stay put |
| `Gameplay.Patrol` | src/Scene/Systems.hpp:184-205 | threshold rules in order (x<=600 right/col 0, x==700 row 2, x==1000 row 3, x>=1100 left/col 1), then x moves by the updated vx; y, vy and other sprite fields unchanged |
| `Gameplay.PatrolTurnsAndMovesSameTick` | src/Scene/Systems.hpp:199-205 | at x >= 1100 the patroller turns to -200, faces column 1, and moves left in the same update |
| `Gameplay.PatrolStaysInBand` | src/Scene/Systems.hpp:185-205 | with steps of at most d > 0 units, never backwards and possibly zero, the patroller keeps speed +/-200 and stays within (600-d, 1100+d) forever |
| `Gameplay.EnemyTurnsAtStart` | src/Scene/Systems.hpp:41-47 | the enemy starting at (1100, 650) with vx 200 turns left on its first update |
| `Gameplay.Follow` | src/Scene/Systems.hpp:220-229 | each axis is set to `player - viewport/2 + 12*zoom` exactly when that candidate is strictly inside (0, world - viewport) and is unchanged otherwise; so each axis is unchanged or in range, and a moved axis centres the player |
| `Gameplay.FollowAxesIndependent` | src/Scene/Systems.hpp:223-229 | the new x depends only on x inputs and the new y only on y inputs |
| `Gameplay.FollowStallsAtEdge` | src/Scene/Systems.hpp:220-229 | an out-of-range x candidate does not stop the y axis from following |
| `Gameplay.FollowStaysInRange` | src/Scene/Systems.hpp:220-229 | over any number of frames each camera axis is its start value or strictly inside the scrollable range |
| `Gameplay.Animate` | src/Scene/Systems.hpp:267-276 | no change unless duration > 0 and n > 0; otherwise row := (row + n) mod frames, in [0, frames) for row >= 0, and lastUpdate := current; other fields unchanged |
| `Gameplay.NoDurationNeverAnimates` | src/Scene/Systems.hpp:267 | a sprite with duration <= 0 (the default Sprite) is unchanged over any number of frames |
| `Gameplay.RowStaysInRange` | src/Scene/Systems.hpp:272-276 | a row in [0, frames) stays there over any number of frames |
| `Gameplay.AdvanceRestoresRange` | src/Scene/Systems.hpp:272-276 | any advance brings a non-negative row into [0, frames) |
| `Systems.Scene.CreateEntity` | src/Scene/Systems.hpp:19-23 | a created entity is appended with its Tag and Transform attached and no other component |
| `Systems.Scene.AddMovement` | src/Scene/Systems.hpp:24 | attaches a Movement to one entity, nothing else changes |
| `Systems.Scene.AddSprite` | src/Scene/Systems.hpp:25 | attaches a Sprite to one entity, nothing else changes |
| `Systems.Scene.AddCamera` | src/Scene/Systems.hpp:75-81 | attaches a Camera to one entity, nothing else changes |
| `Systems.CharacterSetup` | src/Scene/Systems.hpp:17-27 | appends the player at (200, 250) with velocity (0, 0) and sprite {0,2,15,0,0,50,0}, and points the player handle at it |
| `Systems.EnemySetup` | src/Scene/Systems.hpp:39-49 | appends the enemy at (1100, 650) with velocity (200, 0) and sprite {1,2,25,0,0,55,0}, and points the enemy handle at it |
| `Systems.CameraSetup` | src/Scene/Systems.hpp:70-83 | appends the camera at (0, 0) with the given zoom, viewport and world, and points the camera handle at it |
| `Systems.Setup` | src/Scene/Systems.hpp:8-83 | the three setups on a new scene give exactly player, enemy and camera, with every component the later systems read |
| `Systems.InitialPositions` | src/Scene/Systems.hpp:19-47 | the player starts strictly inside the playfield and the enemy on its right turning point |
| `Systems.ActionLatch.constructor` | src/Scene/Systems.hpp:86 | the `playedAction` latch starts clear, the state from which `Input.LatchImpliesActionRow` holds trivially |
| `Systems.PlayerInput` | src/Scene/Systems.hpp:89-161 | the in-place input system leaves the player's Movement, Sprite and the latch exactly as `Input.Step` says; nothing else changes |
| `Systems.MovementUpdate` | src/Scene/Systems.hpp:167-211 | every entity with Movement and Sprite is moved by the player rule if tagged PLAYER and by the patrol otherwise; the rest are untouched |
| `Systems.MoveEntity` | src/Scene/Systems.hpp:168-206 | an entity without Movement or Sprite is untouched; a PLAYER-tagged one gets `MovePlayer`'s position and keeps velocity and sprite; any other gets the patrol's position, velocity and sprite; tag and camera never change |
| `Systems.MovementKeepsPlayerInPlayfield` | src/Scene/Systems.hpp:174-180 | a PLAYER entity inside the playfield stays inside and keeps its velocity and sprite |
| `Systems.CameraFollowUpdate` | src/Scene/Systems.hpp:215-231 | only the camera's Transform changes, to `Gameplay.Follow` of the player's position |
| `Systems.SpriteAnimationUpdate` | src/Scene/Systems.hpp:259-279 | every sprite is advanced by `Gameplay.Animate` with the frame's clock and its own elapsed frames |
| `Systems.SpriteRender` | src/Scene/Systems.hpp:281-302 | one blit per entity with a Sprite, in registry order, with the sprite's source cell and camera-relative destination |
| `Systems.SpriteBlitsFollowCamera` | src/Scene/Systems.hpp:292-297 | moving the camera shifts every sprite blit's destination by the opposite amount and changes nothing else |
| `TileMap.RowBlitsAt` | src/Scene/Systems.hpp:403-407 | the j-th blit of a map row draws the row's j-th cell at column j |
| `TileMap.TileLayoutAt` | src/Scene/Systems.hpp:402-410 | the map renders one blit per cell in row-major order; blit i*width+j draws cell (i, j) at tile position (i, j) |
| `TileMap.TileMapSystem.constructor` | src/Scene/Systems.hpp:361-363 | a new tile map system has a 0 by 0 map (the source leaves the sizes uninitialised; see "## Left out") |
| `TileMap.TileMapSystem.Setup` | src/Scene/Systems.hpp:377-388 | the tile map has width*height entries, entry k being the decoded pixel k |
| `TileMap.TileMapSystem.Render` | src/Scene/Systems.hpp:393-411 | the nested drawing loop produces exactly the row-major tile layout |
| `KnockDown.Score` | src/Scene/Systems.hpp:313-325 | an o press adds one to ko1, a p press adds one to ko2, and every other event leaves both counts |
| `KnockDown.TallyCountsPresses` | src/Scene/Systems.hpp:312-337 | after any event sequence ko1 and ko2 are the numbers of o and p presses |
| `KnockDown.KnockDownPointSystem.constructor` | src/Scene/Systems.hpp:307-308 | both point counters start at 0, the state `KnockDown.Tally` starts from |
| `KnockDown.KnockDownPointSystem.Run` | src/Scene/Systems.hpp:312-326 | an o press adds a point to ko1, a p press to ko2, any other event changes nothing |
| `KnockDown.KnockDownPointSystem.Point1` | src/Scene/Systems.hpp:328-332 | ko1 goes up by one, ko2 unchanged |
| `KnockDown.KnockDownPointSystem.Point2` | src/Scene/Systems.hpp:333-337 | ko2 goes up by one, ko1 unchanged |

## Left out

- Drawing, textures and windows are not modelled. This covers `SDL_RenderCopy`, `SDL_SetRenderDrawColor`, `IMG_Load`, `SDL_CreateTextureFromSurface` and `STexture`, which are foreign I/O. The render passes return the blits they would issue instead.
- The sprite sheets' texture-loading loop is not modelled (src/Scene/Systems.hpp:251-257). That includes its write to `tilesets[1]`, which is out of bounds for a one-element array. The sprite render reads `tilesets[sprite.sheetIndex]` (src/Scene/Systems.hpp:300), and the enemy's sheet index 1 also reads past that array; `SpriteSheet(1)` names the texture without modelling the out-of-bounds read. It is texture I/O only.
- `SDL_GetTicks` and the float arithmetic that turns elapsed time into `framesToUpdate` are not modelled (src/Scene/Systems.hpp:262, 268-270). The clock is the parameter `current`; the frames elapsed are the parameter `framesFor`.
- The `double dT` multiply-and-truncate in movement is not modelled (src/Scene/Systems.hpp:175-176, 205). The frame's whole-unit displacement for a velocity is the parameter `travel`. How the source rounds `pos + v*dT` into that number is floating point and is not part of the model.
- Sprite `durationSeconds` is a `float` in the source and an `int` here. Every value the program gives it is an integer literal, and with the float timing taken as input only its sign is used.
- 32-bit `int` overflow is not modelled in any `int` computation. Dafny integers are unbounded. This covers positions, velocities, rows and point counters, and also `zoom * size`, `x * size`, the tile decoding's `r * 16`, `12 * zoom`, `tilesWidth * tilesHeight` and the tile rectangle's stepping.
- The entt registry is a sequence of entities, a view visits them in index order, and handles are indices. entt's own iteration order is unspecified.
- The source's own `Scene` class, `System.h` and the frame scheduler are not part of this model. `Systems.Scene` stands in for the Scene class, on the assumption that its `createEntity` attaches a Tag and a Transform and that `addComponent` attaches one component. This includes the order in which systems are registered and the event polling. `Systems.Setup` runs the three entity setups in their declaration order.
- `TileMap.TileMapSystem.constructor` sets `tilesWidth` and `tilesHeight` to 0 and makes an empty map. The source constructor (src/Scene/Systems.hpp:361-363) leaves those fields uninitialised, so drawing before setup is undefined behaviour there, while in the model it draws nothing.
- The `std::cout` logging and the heap-allocated `Entity` handles are not modelled.
- `Gameplay.Animate`: requires `frames != 0` when a row advance happens. In the source, `%` by zero is undefined behaviour there.
- `CameraSetupSystem`'s member-initialiser list is written in a different order from the member declarations. This has no effect and is not modelled.
