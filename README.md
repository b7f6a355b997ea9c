# Frogger-style arcade game: a verified model of the game logic

This project models the game logic of a small browser arcade game in Dafny. The player
crosses a board of lanes in which bug-shaped obstacles sweep from left to right. Reaching
the water row scores a point. Touching an obstacle makes the player explode and costs a
life. The game starts with a character picker and ends in a GAME OVER screen that a click
dismisses.

The model follows the two source files:

- `js/app.js` holds four objects that update their own fields in place:
  - the character picker (`PlayerSelector`);
  - the sprite-sheet frame counter (`AnimEntity`);
  - the obstacles (`Enemy`);
  - the player (`Player`).

  Each becomes a Dafny class with the same methods and the same state-carrying
  fields. The changes of form are these:
  - the shared `Entity` base is flattened into `Player` and `Enemy`;
  - the `pos` and `dir` pairs are split into `x`, `y`, `dirX` and `dirY` fields;
  - `Enemy` has no `dir`, because the inherited one is set to zero once and never read;
  - `Player` and `Enemy` carry the configuration as a field `g`;
  - the picker's `char` is named `choice`, since `char` is a Dafny keyword;
  - the picker's `onSelect` callback field is replaced by the return value of
    `HandleInput`, which the engine then applies as `OnSelect`.

  A `State()` function on each class returns a value snapshot. Every method is proved
  against a pure step function on that snapshot (`Selection.Step`, `Animation.Advance`, `Enemies.Move`,
  `Players.Updated`, ...). The properties of the game are proved as lemmas about those
  step functions.
- `js/engine.js` holds:
  - the phase machine (RUN, GAME_OVER, SELECT_PLAYER);
  - the key and click handlers and the picker's `onSelect` callback;
  - the per-frame `update`, with `updateEntities` and the collision scan;
  - the `collides` overlap test.

  Module `Game` states all of this as functions over a `WorldState` value, with an
  invariant `Inv` that every handler keeps. It also defines `Session`, which runs any
  sequence of events and provably keeps `Inv`. Module `Engine` has a `World` class that
  owns the picker, the player and an array of obstacle objects. Its methods (`OnKey`,
  `OnClick`, `Tick`, `Update`, `UpdateEntities`, `CheckCollisions`) run the same loops
  as the source, and each is proved to produce exactly the state that `Game` describes.

The configuration object `appGlobals` is not part of this model's sources. It becomes the
`GameConfig.Globals` value, and every result holds for any configuration that meets
`Globals.Valid()`: positive board and tile sizes, non-negative lives,
`0 < minSpeed < maxSpeed` and `minPos < maxPos`. Facts about the player staying on the
board also assume `SpawnOnBoard()`, meaning the spawn tile lies inside the walkable area.

The two `Math.random()` values drawn whenever an obstacle (re)spawns are supplied by the
caller as a `Draw(speed, lane)`. Each draw must lie in the configured ranges, just as the
source's formula guarantees. The elapsed time `dt` that `main` computes from `Date.now()`
is a parameter.

Behaviour kept exactly as the code has it:

- **Several lives can go in one frame.** The collision scan does not stop at the first
  hit, so one frame can cost several lives and push the counter below -1
  (`Collision.TwoHitsTwoLives`).
- **Movement continues during an explosion.** The phase stays RUN while the player
  explodes, so the obstacles and `player.update()` keep running
  (`Game.ExplodingKeepsObstaclesMoving`). Only the collision scan is suspended
  (`Game.ExplodingSuspendsCollisions`).
- **One frame per call.** The explosion advances at most one frame per `update` call,
  however large `dt` is, and the accumulated time is then dropped
  (`Animation.FramesPerCall`, `Animation.LargeDeltaOneFrame`). An explosion therefore
  lasts at least five frames. It does not end after a fixed total of 0.40 s.
- **Enter always fires the callback.** On the picker, Enter calls the selection callback
  even when a character is already confirmed.

## Model

| member | source | states |
|---|---|---|
| Selection.Step | js/app.js:32-48 | Left/Right move the highlight by exactly one only when not confirmed and the move stays inside the choices. Left at 0 and Right at the last index are no-ops. Enter sets the latch and keeps the index. Other keys change nothing. The index stays in range. |
| Selection.RunStaysInRange | js/app.js:34-42 | From an index inside the choices, no key sequence moves the highlight out of them. |
| Selection.ConfirmedIsFrozen | js/app.js:36-44 | Once confirmed, no key sequence changes the picker. |
| Selection.FiveChoicesWalk | js/app.js:35-42 | With five characters, Left at 0 is clamped, and Left, Right x4, Left ends on index 3. |
| Selection.PlayerSelector.constructor | js/app.js:5-12 | Keeps the given sprites and starts at index 0, unconfirmed. |
| Selection.PlayerSelector.Reset | js/app.js:14-17 | Index 0 and unconfirmed afterwards. The sprites are constants and do not change. |
| Selection.PlayerSelector.HandleInput | js/app.js:32-48 | The new picker state is `Step` of the old one. The callback value is returned exactly on Enter and carries the sprite highlighted before the key. |
| Animation.Advance | js/app.js:72-79 | The frame either stays or advances by exactly one. It advances iff the accumulated time plus `dt` strictly exceeds the frame duration. On advancing the accumulator becomes 0, and otherwise it grows by `dt`. |
| Animation.FramesPerCall | js/app.js:72-79 | Over any sequence of calls the frame never decreases and grows by at most one per call. |
| Animation.LongCallsAdvanceEveryTime | js/app.js:75-77 | When every call brings more than one frame's time, every call advances exactly one frame. |
| Animation.FramesNeedTime | js/app.js:73-77 | Each advanced frame consumed more than one frame duration of the time fed in: frames x duration + leftover <= initial accumulator + total time. |
| Animation.LargeDeltaOneFrame | js/app.js:72-79 | For the 0.08 s explosion, 0.40 s in one call moves to frame 1 only. Exactly 0.08 s does not advance, and two such calls do. |
| Animation.AnimEntity.constructor | js/app.js:51-59 | Stores sprite, frame count, size and frame duration, starting at frame 0 with nothing accumulated. |
| Animation.AnimEntity.Update | js/app.js:72-79 | The new counter is `Advance` of the old one. The drawing position is unchanged. |
| Animation.AnimEntity.Reset | js/app.js:81-84 | Frame 0 and nothing accumulated. The drawing position is unchanged. |
| Enemies.Move | js/app.js:108-115 | If x + speed <= width, x advances by the speed and lane and speed stay. Otherwise the obstacle restarts at x = 0 with the drawn lane and speed. Being on the board with in-range speed and lane is preserved. |
| Enemies.MoveAll | js/engine.js:152-154 | Every obstacle moves once with its own draw, and the count is unchanged. |
| Enemies.SweepStaysInRange | js/app.js:108-115 | However many frames pass, an obstacle stays on the board with speed and lane in their ranges. |
| Enemies.Enemy.constructor | js/app.js:99-103 | Starts at the given x with the drawn speed, and the drawn lane replaces the given y. |
| Enemies.Enemy.Update | js/app.js:108-115 | The new state is `Move` of the old one, and being in range is preserved. |
| Players.Spawned | js/app.js:118-127 | A new player has full lives, no score, no pending displacement and a rewound explosion, and stands on the walkable board when the spawn tile is on it. |
| Players.Died | js/app.js:161-165 | Exploding and exactly one life fewer; nothing else changes. |
| Players.Respawned | js/app.js:167-171 | Back on the spawn tile, not exploding, explosion rewound; lives, score and displacement kept; on the walkable board when the spawn tile is on it. |
| Players.Restarted | js/app.js:173-176 | Full lives and zero score; nothing else changes. |
| Players.ExplosionNeedsFiveCalls | js/app.js:157-159 | From a rewound explosion, `explosionEnded` can hold only after at least five `update` calls, however long each is, and five calls each longer than a frame do end it. |
| Players.WithInput | js/app.js:178-196 | No-op while exploding. Otherwise each direction key sets the pending displacement to exactly one tile that way, overwriting the previous one. Enter and unmapped keys change nothing. Only the displacement can change. |
| Players.Landing | js/app.js:141-146 | Each axis moves by the displacement exactly when the result stays in [0, width), or in [0, height - 150) for y. Otherwise that axis stays. |
| Players.Updated | js/app.js:139-155 | The displacement is cleared and lives are kept. Reaching the goal row adds exactly one point and respawns. Otherwise the player moves to the landing position and nothing else changes. |
| Players.SpawnIsAligned | js/app.js:119 | The spawn tile (2 x tile width, 5 x tile height) lies on the tile grid. |
| Players.ApplyKeepsAligned | js/app.js:139-196 | Input, update, die, reset and restart each keep position and displacement on the tile grid. |
| Players.PlayKeepsAligned | js/app.js:139-196 | Any mix of those operations keeps the player on the tile grid. |
| Players.UpdatedLeavesGoalRow | js/app.js:148-152 | After `update` the player is never left in the goal row. |
| Players.ApplyKeepsInBounds | js/app.js:141-146 | When the spawn tile is on the board, every operation keeps the player on the walkable board below the goal row. |
| Players.PlayKeepsInBounds | js/app.js:139-196 | The same holds for any sequence of operations. |
| Players.PlayCountsDeaths | js/app.js:161-176 | Without `restart`, lives drop by exactly one per `die` and change in no other way. |
| Players.FourDeaths | js/app.js:161-165 | With three lives, four deaths without a restart leave -1 lives. |
| Players.Player.constructor | js/app.js:118-127 | On the spawn tile, with no displacement, full lives, no score, not exploding, and a fresh five-frame 0.08 s explosion. |
| Players.Player.Update | js/app.js:139-155 | The new state is `Updated` of the old one. The sprite and explosion position are unchanged. |
| Players.Player.ExplosionEnded | js/app.js:157-159 | Holds iff the explosion shows frame `cols` (5). |
| Players.Player.Die | js/app.js:161-165 | Exploding, exactly one life fewer, and nothing else in the state changes. The explosion is drawn at the player's position. |
| Players.Player.Reset | js/app.js:167-171 | Back on spawn, not exploding, explosion rewound. Lives, score and displacement are kept. |
| Players.Player.Restart | js/app.js:173-176 | Full lives and zero score, and nothing else changes. |
| Players.Player.HandleInput | js/app.js:178-196 | The new state is `WithInput` of the old one, and the sprite is unchanged. |
| Collision.Collides | js/engine.js:158-163 | The strict box overlap holds iff the anchors are closer than `size` on both axes, and never for a non-positive size. |
| Collision.CollidesSymmetric | js/engine.js:158-163 | The overlap test is symmetric in its two points. |
| Collision.CollidesWithItself | js/engine.js:158-163 | A point overlaps itself for any positive size. |
| Collision.FarApartDoNotCollide | js/engine.js:158-163 | Points at least `size` apart on either axis do not overlap. |
| Collision.CollisionExamples | js/engine.js:158-163 | Concrete overlap and non-overlap at size 60. |
| Collision.Hits | js/engine.js:165-170 | At most one hit per obstacle, and zero hits iff no obstacle overlaps the point. |
| Collision.Scanned | js/engine.js:165-170 | The scan costs exactly one life per overlapping obstacle. The player is exploding afterwards iff they already were or at least one obstacle hit. Nothing else changes. |
| Collision.TwoHitsTwoLives | js/engine.js:166-169 | Two obstacles on the player's tile in the same frame cost two lives. |
| Game.KeyOf | js/engine.js:51-57 | Codes 13, 37, 38, 39 and 40 map to Enter, Left, Up, Right and Down, each iff the code matches. |
| Game.PhaseAfterExplosion | js/engine.js:132-135 | GAME_OVER iff lives < 0, RUN iff lives >= 0. |
| Game.Selected | js/engine.js:45-48 | The phase becomes RUN and the player sprite becomes the chosen one. Nothing else changes. |
| Game.KeyPressed | js/engine.js:50-63 | In GAME_OVER nothing changes. In RUN only the player takes the key. In SELECT_PLAYER only the picker takes it, and Enter starts RUN with the highlighted sprite. |
| Game.Clicked | js/engine.js:65-71 | A no-op unless GAME_OVER. In GAME_OVER: picker reset, lives and score restarted, phase SELECT_PLAYER, obstacles and sprite kept. |
| Game.EntitiesUpdated | js/engine.js:151-156 | Only the obstacles and the player change. The obstacle count and lives are kept, the player cannot start exploding, and in-range obstacles stay in range for in-range draws. |
| Game.ExplosionStep | js/engine.js:129-139 | Advances the explosion and changes nothing but the phase and the player; lives, score and the pending displacement are kept. When the last frame is reached, the phase follows the lives and the player is respawned. |
| Game.CollisionsChecked | js/engine.js:140-141 | Only the player changes, losing one life per obstacle overlapping it. |
| Game.UpdateWorld | js/engine.js:125-142 | The frame update never changes the picker, the sprite, the choices or the obstacle count. |
| Game.FrameStep | js/engine.js:89-90 | Outside RUN a frame changes nothing. In RUN the phase stays RUN or becomes GAME_OVER, and GAME_OVER is entered only with negative lives, on the frame whose explosion step reaches the last frame. |
| Game.Initial | js/app.js:204-215 | The start-up world is in SELECT_PLAYER with the picker at index 0 unconfirmed, the spawned player, and one obstacle per draw at x = 0 with that draw's lane and speed. |
| Game.InitialInv | js/app.js:204-215 | The start-up world satisfies the game invariant: picker in range, player aligned, on the board, not exploding, obstacles in range. |
| Game.KeyPressedKeepsInv | js/engine.js:50-63 | Every key in every phase keeps the invariant. |
| Game.ClickedKeepsInv | js/engine.js:65-71 | A click keeps the invariant. |
| Game.UpdateWorldKeepsInv | js/engine.js:125-142 | A RUN frame keeps the invariant, whatever the draws and `dt`. |
| Game.FrameStepKeepsInv | js/engine.js:76-103 | Any pass of the main loop keeps the invariant. |
| Game.Handle | js/engine.js:40-90 | Any key, click or frame keeps the invariant. The phase changes only SELECT_PLAYER to RUN on Enter, RUN to GAME_OVER only on a frame that ends an explosion with negative lives, and GAME_OVER to SELECT_PLAYER on a click. |
| Game.Session | js/engine.js:76-103 | Any sequence of events keeps the invariant, the choices and the obstacle count. |
| Game.ExplodingSuspendsCollisions | js/engine.js:129-141 | While exploding, a frame costs no life. |
| Game.ExplodingKeepsObstaclesMoving | js/engine.js:126-129 | While the player explodes the phase stays RUN, so a frame still moves every obstacle exactly as `MoveAll` does. |
| Game.DeathStartsExplosionAtFrameZero | js/engine.js:140-141 | A frame that starts with the player not exploding leaves the explosion rewound to frame 0, so a new explosion starts from its first frame. |
| Game.ExplosionEndDecidesPhase | js/engine.js:129-138 | The frame that ends an explosion gives GAME_OVER iff lives < 0 and RUN otherwise, with the player respawned and lives unchanged. |
| Game.CollisionsCostOneLifeEach | js/engine.js:140-141 | In a frame without an explosion, lives drop by exactly the number of obstacles overlapping the moved player. |
| Game.PickerFollowsKeys | js/engine.js:59-60 | In SELECT_PLAYER, any keys other than Enter act only on the picker: the session equals the picker's own run over the same keys. |
| Game.PickFourthCharacter | js/engine.js:45-60 | Left, Right x4, Left, then Enter starts RUN with the fourth character. |
| Game.FourthDeathEndsGame | js/engine.js:131-133 | With three lives, the fourth death leaves -1 lives, and the frame that ends its explosion enters GAME_OVER. |
| Engine.World.constructor | js/app.js:204-215 | The objects are created fresh: `nEnemies` obstacles at x = 0, each with its own draw, the player on spawn, and the five-character picker in SELECT_PLAYER. The world is exactly `Initial` and satisfies the invariant. |
| Engine.World.OnSelect | js/engine.js:45-48 | The new world is `Selected` of the old one. |
| Engine.World.OnKey | js/engine.js:50-63 | The new world is `KeyPressed` of the old one with the mapped key, and the invariant is kept. |
| Engine.World.OnClick | js/engine.js:65-71 | The new world is `Clicked` of the old one, and the invariant is kept. |
| Engine.World.Tick | js/engine.js:89-90 | One pass of the main loop: the new world is `FrameStep` of the old one, and the invariant is kept. |
| Engine.World.Update | js/engine.js:125-142 | The new world is `UpdateWorld` of the old one. |
| Engine.World.UpdateEntities | js/engine.js:151-156 | Every obstacle object moves once in order and then the player updates. The snapshots equal `MoveAll` and `Updated` of the old ones. |
| Engine.World.CheckCollisions | js/engine.js:165-170 | The loop over the obstacle array leaves the player exactly as `Scanned` over the obstacles' positions. |
| Engine.SpawnEnemies | js/app.js:205-208 | One fresh, distinct obstacle per draw, in order, each at x = 0 with its draw's lane and speed. |

## Left out

- Drawing is not modelled: the render methods, the tile board, the score and lives HUD, the picker highlight and sprite-sheet offsets. They only call the canvas API. For the same reason `PlayerSelector.pos` is not modelled, `AnimEntity.size` and `sprite` are kept as plain constants, and `AnimEntity.pos` is only ever written.
- Canvas and DOM setup, the event-listener registration, image loading (`Resources`), `init` and the `requestAnimationFrame` scheduling are browser plumbing and are not modelled. Events arrive as `Game.Event` values instead.
- `Date.now()` is not modelled; the elapsed time is a parameter of `Tick` and `Update`.
- `Math.random()` is not modelled; the caller supplies each draw, constrained to the configured ranges.
- The engine's empty `reset()` stub does nothing and is not modelled.
- Players.Player.Die: the source makes the explosion share the player's position array, while the model copies the position into it. The game invariant shows the two agree: the pending displacement is zero whenever the player explodes, and `reset` assigns a new array, so the shared array is never moved while the explosion is shown.
- Enemies.Enemy.Update: takes no elapsed time, because the source ignores the argument it receives.
- Engine.World.Update: requires that the objects are wired as start-up wires them (`Sound()`: configuration valid, every object sharing it, obstacles pairwise distinct). The source's globals make this hold by construction.
- Engine.World.constructor: models the module-level instantiation with a picker over the five character sprites and `nEnemies` obstacles. The `pos` parameter of `Player` and the `speed` parameter of `Enemy` are declared but never passed or read, so they are dropped.
- Integer and real arithmetic is unbounded. JavaScript numbers are doubles, but every quantity here is small: tile coordinates, lives, score, speeds and times. Rounding of `dt` sums is not modelled.
