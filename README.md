# Tank Battle simulation core in Dafny

A verified model of the simulation behind the browser game in `src/game.js`.
The player's tank is steered with the keys, aims with the mouse and fires with the button.
Enemy tanks (scouts, heavies and snipers) arrive in waves. They steer at the player and fire when their cooldown has run out and nothing blocks their line of sight.
Bullets are removed by walls, by the arena bounds, by their 2.2 s lifetime or by hitting a target.
Powerups heal the player or grant rapid fire for six seconds.

The model has two layers:

- **Values.** Module `Rules` describes one frame of `update(dt)` as pure transitions on a `Snapshot` of the whole game state, one function per phase in the source's order: aim and fire, move the player, enemies, wave timer, powerup pulse, bullets, particles, powerups, buff expiry. `Step` composes the phases.
- **State.** Module `Game` holds class `World`. Its fields are the state record's fields, and its methods change them in place with the source's loops (`for … of state.enemies`, the `alive*` accumulators, `push` and `splice`). Each method ensures that the new state equals the `Rules` function applied to the old state. `World.Update` also keeps the frame invariant `Invariants.Consistent`.

The other modules:

- `Geometry`: clamping, circle/rectangle and circle/circle overlap, wall collision, and the sampled line-of-sight test. The test is written as a predicate over the sample index.
- `Tuning`: the game's constants and the per-variant table.
- `Director`: variant choice, wave size and spawn delay.
- `Entities`: the records and the functions that create them.
- `Combat`: what one bullet, one strike, `damagePlayer` and one powerup do, and that the three survivor loops are order-keeping filters.
- `Invariants`: the state invariant and its preservation by every phase.

Inputs that the game takes from the browser are parameters of the model:

- **`Math.random()`** is a stream `random: nat -> real` with a counter `draws`. Call number k that the simulation makes returns `random(k)`. Draws are made in the source's order:
  - `createEnemy`: x, y, variant, cooldown;
  - the post-wave powerup: x, y, kind;
  - each explosion particle: angle, speed, life, size.

  The star field of the space theme also calls `Math.random()` (120 stars, 4 calls each, whenever its list is empty), from the renderer between two frames. Those calls are not counted: `random` is the sequence of values the simulation itself receives.
- **`Math.hypot`** is an uninterpreted function `hypot`.
- **The clock `now()`** is one time `t` per frame.
- **The frame length `dt`** is capped at 0.033 by `tick`.
- **Keyboard, mouse and touch input** form one `Command` per frame.
- **The stored high score and best wave** are a `Records` value that `damagePlayer` reads and writes.

Two behaviours of the source are reproduced as written and exhibited by lemmas:

- **Enemy bullets survive a non-fatal hit.** `damagePlayer` filters the enemy bullets out of `state.bullets`. The bullet loop then overwrites that list with its own survivors, collected from the list it started with (`Combat.EnemyBulletOutlivesHit`).
- **Lives can drop below 0.** The loop keeps running after a fatal hit, so a second enemy bullet on the player in the same frame takes another life (`Combat.LivesCanGoNegative`). The invariant therefore bounds lives only from above.

Under exact arithmetic the scout and heavy bands cover [0, 1) from wave 15 on, so no sniper appears after that (`Director.NoSniperFromWave15`).

## Model

| member | source | states |
|---|---|---|
| Geometry.Clamp | src/game.js:72 | the result lies in [lo, hi] when lo <= hi; it is v inside the range, lo below it and hi above it |
| Geometry.Normalize | src/game.js:74 | a zero length divides by 1, so the zero vector stays as it is |
| Geometry.CircleIntersectsRect | src/game.js:77-83 | a circle whose centre lies in the rectangle always intersects it |
| Geometry.CirclesOverlap | src/game.js:85-87 | two circles with the same centre always overlap |
| Geometry.CirclesOverlapSymmetric | src/game.js:85-87 | the overlap test does not depend on which circle comes first |
| Geometry.CollidesWithWalls | src/game.js:552-557 | `collidesWithWalls`: walls tried in order, first hit answers; characterised by `Geometry.CollidesWithWallsIff` |
| Geometry.CollidesWithWallsIff | src/game.js:552-557 | the first-hit wall scan reports a collision exactly when some wall intersects the circle |
| Geometry.Ceil | src/game.js:562 | `Math.ceil`: the least integer not below x |
| Geometry.HasLineOfSight | src/game.js:559-572 | `hasLineOfSight` over the sample index; characterised by `Geometry.LineOfSightIff` and `Geometry.LineOfSightEnds` |
| Geometry.SamplesClearIff | src/game.js:564-570 | the sampling loop succeeds exactly when no remaining sample point lies in a wall |
| Geometry.LineOfSightIff | src/game.js:559-572 | line of sight holds exactly when none of the `ceil(d/8)` sample points lies in a wall |
| Geometry.LineOfSightEnds | src/game.js:559-572 | a target at distance 0 is always seen; a shooter standing in a wall sees nothing farther away |
| Tuning.Speed | src/game.js:28-30 | every variant moves at 90 to 180 per second, and at 90 exactly when it is a heavy |
| Tuning.MaxHp | src/game.js:27-31 | a new enemy has 1 to 3 hit points, and 3 exactly for a heavy |
| Tuning.ScoreValue | src/game.js:27-31 | every variant is worth at least 10 points |
| Tuning.FireInterval | src/game.js:409 | the fire interval is positive, and only the sniper differs from the 1.2 s default |
| Tuning.ShotSpeed | src/game.js:408 | enemy bullets are at least as fast as the 440 default |
| Director.PScout | src/game.js:130 | the scout probability stays in [0.5, 0.7] for every wave |
| Director.PHeavy | src/game.js:131 | the heavy probability stays in [0.2, 0.35] for every wave |
| Director.ChooseVariant | src/game.js:127-136 | scout iff roll < pScout; heavy iff pScout <= roll < pScout + pHeavy; sniper iff roll >= pScout + pHeavy |
| Director.SniperBand | src/game.js:130-135 | the two bands leave room for a sniper exactly while wave < 15 |
| Director.NoSniperFromWave15 | src/game.js:127-136 | from wave 15 on, no roll in [0, 1) yields a sniper |
| Director.SniperBeforeWave15 | src/game.js:127-136 | before wave 15, a high enough roll yields a sniper |
| Director.WaveSize | src/game.js:510 | a wave from wave 0 on brings at least 2 enemies; see `Director.WaveSizeExact` and `Director.WaveSizeMonotone` |
| Director.WaveSizeExact | src/game.js:510 | `2 + floor(wave * 1.2)` equals the integer formula 2 + 6·wave/5 |
| Director.WaveSizeOfFirstWave | src/game.js:510 | the first wave brings 3 enemies |
| Director.WaveSizeMonotone | src/game.js:510 | later waves are never smaller |
| Director.SpawnDelay | src/game.js:420 | the next delay is at least 2 s, is exactly 2 s from wave 12 on, and is above 2 s before that |
| Director.SpawnDelayNonIncreasing | src/game.js:420 | the delay never grows as the wave advances |
| Entities.InRange | src/game.js:89 | `randomInRange(lo, hi)` with a roll in [0, 1) lies in [lo, hi] |
| Entities.NewPlayer | src/game.js:118-125 | `createPlayer`: the start position (480, 480) with cooldown 0; `Rules.Reset` and `Invariants.ResetConsistent` state that it lies inside the arena after a reset |
| Entities.NewEnemy | src/game.js:138-145 | a new enemy has its variant's full hit points, its variant comes from the third roll, and it spawns in the top band of the arena |
| Entities.NewBullet | src/game.js:147-149 | `createBullet`: velocity is direction times speed and the birth time is the frame time; `Rules.AimAndFire` and `Rules.EnemyTurnFacts` state owner and birth time |
| Entities.NewPowerup | src/game.js:151-153 | `createPowerup`: radius 10 and pulse 0; see `Rules.WavePowerup` |
| Entities.Burst | src/game.js:544-550 | an explosion makes 18 particles, each with a life in [0.6, 1.0] |
| Entities.MapWalls | src/game.js:170-186 | the map has eight walls |
| Rules.Reset | src/game.js:155-167 | a new session has 3 lives, wave 1, score 0, no enemies or bullets, the map's walls, the player at (480, 480) with cooldown 0, the last wave at t and a 6 s delay, and is neither paused nor over; particles, powerups, buff, records and the random stream are kept |
| Rules.Initial | src/game.js:98-116 | the page's initial record followed by `resetGame`; `Game.World.constructor` builds it and establishes the frame invariant |
| Rules.TogglePause | src/game.js:625-629 | a finished game ignores the pause button; otherwise only the paused flag flips |
| Rules.Cool | src/game.js:358 | a cooldown never goes below 0; it reaches 0 exactly when it was at most dt, and otherwise drops by dt |
| Rules.PlayerFireCd | src/game.js:359 | the fire interval is positive, and shorter than 0.25 s exactly while rapid is active |
| Rules.AimAndFire | src/game.js:353-367 | only the player's cooldown and the bullets change. Firing appends one player bullet born at t and restarts the cooldown. Not firing only cools down. |
| Rules.SlideMoveStaysInArena | src/game.js:381-384 | a circle that starts inside the arena stays inside it, whatever the walls |
| Rules.SlideMoveAxes | src/game.js:381-384 | x is probed at (nx, y) and y at (x, ny). A blocked axis keeps its coordinate. A free axis takes the candidate clamped into [r, 960-r] or [r, 600-r]. |
| Rules.SlideMove | src/game.js:381-384 | the axis-separated wall-checked move; characterised by `Rules.SlideMoveAxes` and `Rules.SlideMoveStaysInArena` |
| Rules.MovePlayer | src/game.js:369-385 | player movement; its properties are `Rules.MovePlayerFacts` |
| Rules.MovePlayerFacts | src/game.js:369-385 | movement changes only the player's position; no key held means no change; the player stays inside the arena |
| Rules.Steer | src/game.js:389-404 | steering and cooldown of one enemy; its properties are in `Rules.EnemyTurnFacts` |
| Rules.EnemyTurn | src/game.js:389-412 | one iteration of the enemy loop; characterised by `Rules.EnemyTurnFacts` |
| Rules.EnemyTurnFacts | src/game.js:388-412 | a turn keeps hp, variant and spawn time and fires at most one enemy bullet born at t. It fires exactly when the cooled-down cooldown is 0 and the enemy, at its moved position, has line of sight to the player; a shot restarts the cooldown at the variant's interval. An enemy inside the arena stays inside it. |
| Rules.EnemiesAct | src/game.js:388-413 | the enemy loop keeps the list's length and leaves the enemies it has not reached untouched |
| Rules.EnemiesActSpec | src/game.js:388-413 | after the loop every enemy is the result of its own turn. The old bullets stay first. At most n enemy bullets are appended in total, each born at t. |
| Rules.EnemiesPhase | src/game.js:388-413 | the enemy loop; characterised by `Rules.EnemiesActSpec`, `Combat.EnemiesActShots` and `Invariants.EnemiesPhaseKeepsConsistent` |
| Combat.EnemiesActShots | src/game.js:403-411 | the bullets the enemy loop appends come after the old ones and are exactly the shots of the enemies whose turn fired, one bullet each, in enemy order. Every enemy that fires appears in the index list. |
| Rules.WaveEnemies | src/game.js:511-513 | a wave of n enemies has n members, all alive and spawned at t |
| Rules.WaveEnemiesSnoc | src/game.js:511-513 | one more `createEnemy` call extends the wave by the enemy drawn from the next four rolls |
| Rules.WavePowerup | src/game.js:518-521 | the post-wave powerup is heal exactly when its third roll is below 0.5, has radius 10, pulse 0 and birth time t, and lies in [60, 900] × [80, 520] |
| Rules.SpawnWave | src/game.js:509-522 | `spawnWave`; characterised by `Invariants.SpawnPhaseEffects` |
| Rules.SpawnPhase | src/game.js:415-421 | the wave timer; characterised by `Invariants.SpawnPhaseEffects` and `Invariants.SpawnPhaseKeepsConsistent` |
| Rules.Pulse | src/game.js:424 | every powerup's pulse grows by 6·dt and nothing else about it changes |
| Rules.Explode | src/game.js:544-550 | an explosion keeps the old particles and appends exactly 18, each with a life in [0.6, 1.0], takes 72 random draws and changes nothing else |
| Rules.PlayerBullets | src/game.js:536 | the filter keeps every player bullet as often as it occurs and drops every enemy bullet; it never lengthens the list |
| Rules.SaveRecords | src/game.js:530-533 | the leaderboard update; characterised by `Combat.SaveRecordsKeepsBest` |
| Rules.Hurt | src/game.js:525-539 | `damagePlayer` before its explosion; characterised by `Combat.DamageEffects` |
| Rules.Damage | src/game.js:524-542 | `damagePlayer`; characterised by `Combat.DamageEffects` |
| Rules.FirstHit | src/game.js:449-451 | the scan returns the first enemy that the bullet overlaps, or the list's length when it overlaps none |
| Rules.StrikeEnemy | src/game.js:451-462 | a strike on one enemy; characterised by `Combat.StrikeEffects` and `Combat.HeavyNeedsThreeHits` |
| Rules.ResolveBullet | src/game.js:428-470 | one iteration of the bullet loop; characterised by `Combat.ResolveBulletOrder` |
| Rules.SweepBullets | src/game.js:427-471 | the bullet loop after n iterations; characterised by `Combat.SweepBulletsKeepsOrder` and `Combat.SweepBulletsLives` |
| Rules.BulletsPhase | src/game.js:427-472 | the survivors replace the bullet list; see `Combat.EnemyBulletOutlivesHit` and `Combat.LivesCanGoNegative` |
| Rules.AgeParticles | src/game.js:475-482 | the particle loop; characterised by `Combat.AgeParticlesKeepsOrder` |
| Rules.CollectPowerup | src/game.js:487-501 | one iteration of the pickup loop; characterised by `Combat.CollectPowerupEffects` |
| Rules.SweepPowerups | src/game.js:485-502 | the pickup loop after n iterations; characterised by `Combat.SweepPowerupsKeepsOrder` |
| Rules.PowerupsPhase | src/game.js:485-503 | the survivors replace the powerup list; see `Invariants.SweepPowerupsKeepsConsistent` |
| Rules.ExpireBuff | src/game.js:506 | only the buff changes: rapid is cleared once t is past its expiry, and otherwise the buff is kept |
| Rules.Step | src/game.js:350-507 | one frame; characterised by `Invariants.StepGated` and `Invariants.StepPreservesConsistent` |
| Combat.FirstHitFindsAny | src/game.js:449-451 | the scan finds an enemy exactly when the bullet overlaps some enemy |
| Combat.ResolveBulletOrder | src/game.js:428-470 | a moved bullet survives exactly when no check applies, and then nothing changes. Wall, bounds and lifetime checks come first and change nothing. An enemy bullet on the player runs `damagePlayer`. A player bullet strikes the first enemy it overlaps. |
| Combat.StrikeEffects | src/game.js:447-462 | the struck enemy loses one hit point. At 0 it is removed with the others kept in order, its score is added and two explosions are spawned. Otherwise it stays in place and one explosion is spawned. Lives, wave, player and bullets are untouched. |
| Combat.HeavyNeedsThreeHits | src/game.js:447-462 | a full-strength heavy survives two strikes at the same index and the third removes it and scores 25 |
| Combat.SaveRecordsKeepsBest | src/game.js:530-533 | each record is the larger of its stored value and the game's value (score, wave - 1), and changes exactly when beaten |
| Combat.DamageEffects | src/game.js:524-542 | one life is lost; the game ends iff lives reach <= 0. A fatal hit stores the records. A non-fatal one resets the player to (480, 480) and keeps only player bullets in `state.bullets`. |
| Combat.CollectPowerupEffects | src/game.js:487-501 | a picked powerup is removed with an explosion: heal gives a life up to 3, rapid starts the buff until t + 6. An unpicked one changes nothing and stays iff it is at most 12 s old. |
| Combat.SweepBulletsKeepsOrder | src/game.js:427-472 | the survivors are exactly the bullets their own turn kept, moved by v·dt, in their original relative order, and nothing is added |
| Combat.AgeParticlesKeepsOrder | src/game.js:475-482 | the surviving particles are exactly those whose life minus dt is positive, in their original order |
| Combat.SweepPowerupsKeepsOrder | src/game.js:485-503 | the remaining powerups are exactly those their own turn kept, unchanged and in their original order |
| Combat.ResolveBulletLives | src/game.js:443-446 | one bullet costs at most one life and never gives one back |
| Combat.SweepBulletsLives | src/game.js:427-472 | over n bullets at most n lives are lost and none gained |
| Combat.EnemyBulletOutlivesHit | src/game.js:427-472 | after a non-fatal hit, another enemy bullet in the same frame is still in the bullet list |
| Combat.LivesCanGoNegative | src/game.js:524-529 | two enemy bullets on a player with one life leave lives at -1 |
| Invariants.ResetConsistent | src/game.js:155-167 | `resetGame` establishes the frame invariant from any state |
| Invariants.StrikeKeepsEnemies | src/game.js:447-462 | removing an enemy, or lowering its hp to a value >= 1, keeps every listed enemy alive and inside the arena |
| Invariants.EnemiesPhaseKeepsConsistent | src/game.js:388-413 | the enemy loop keeps the invariant and changes only enemies and bullets |
| Invariants.SpawnPhaseEffects | src/game.js:415-421 | a due timer appends exactly `2 + floor(wave*1.2)` enemies with full hp, raises the wave by exactly 1, appends one powerup and sets the delay to `max(2, 6 - 0.35·wave)`. A timer that is not due changes nothing. |
| Invariants.SpawnPhaseKeepsConsistent | src/game.js:509-522 | spawned enemies are alive and inside the arena, so the invariant holds after a wave |
| Invariants.ResolveBulletKeepsConsistent | src/game.js:428-470 | one bullet keeps the invariant, never lowers the score and leaves wave and timer alone |
| Invariants.SweepBulletsKeepsConsistent | src/game.js:427-472 | the whole bullet loop keeps the invariant and never lowers the score |
| Invariants.CollectPowerupKeepsConsistent | src/game.js:487-501 | one powerup keeps the invariant, the score and the wave |
| Invariants.SweepPowerupsKeepsConsistent | src/game.js:485-503 | the pickup loop keeps the invariant, the score and the wave |
| Invariants.StepGated | src/game.js:351 | `update` changes nothing while paused or after game over |
| Invariants.StepPreservesConsistent | src/game.js:350-507 | a frame keeps the invariant (wave >= 1, score >= 0, lives <= 3, delay >= 2, cooldown >= 0, the player and every enemy inside the arena, every enemy alive). It never lowers the score, raises the wave by at most one, and never unpauses or revives a game. |
| Game.World.constructor | src/game.js:98-116 | the page's initial state followed by `resetGame` satisfies the frame invariant |
| Game.World.ResetGame | src/game.js:155-167 | the fields become `Rules.Reset` of the old state, which satisfies the frame invariant (also reached through the restart button, line 631) |
| Game.World.TogglePause | src/game.js:625-629 | the fields become `Rules.TogglePause` of the old state, and the frame invariant is kept |
| Game.World.Roll | src/game.js:89 | one `Math.random()` call returns the next value of the stream |
| Game.World.SpawnExplosion | src/game.js:544-550 | the 18-particle loop leaves exactly `Rules.Explode` of the old state |
| Game.World.DamagePlayer | src/game.js:524-542 | the in-place `damagePlayer` leaves exactly `Rules.Damage` of the old state |
| Game.World.AimAndFire | src/game.js:353-367 | the in-place aim and fire leaves `Rules.AimAndFire` of the old state |
| Game.World.MovePlayer | src/game.js:369-385 | the in-place movement leaves `Rules.MovePlayer` of the old state |
| Game.World.SteerEnemy | src/game.js:390-404 | the in-place steering equals `Rules.Steer` |
| Game.World.EnemyAct | src/game.js:389-412 | one loop body equals `Rules.EnemyTurn` |
| Game.World.MoveEnemies | src/game.js:388-413 | the enemy loop leaves `Rules.EnemiesPhase` of the old state |
| Game.World.PickVariant | src/game.js:127-136 | `chooseVariant` draws one roll and returns `Director.ChooseVariant` of it |
| Game.World.CreateEnemy | src/game.js:138-145 | `createEnemy` draws four rolls and returns `Entities.NewEnemy` |
| Game.World.SpawnWave | src/game.js:509-522 | the spawning loop leaves `Rules.SpawnWave` of the old state |
| Game.World.DropPowerup | src/game.js:518-521 | the post-wave powerup takes three rolls and equals `Rules.WavePowerup` |
| Game.World.SpawnTimer | src/game.js:415-421 | the wave timer leaves `Rules.SpawnPhase` of the old state |
| Game.World.PulsePowerups | src/game.js:424 | the pulse loop leaves the old state with `Rules.Pulse` applied to the powerups |
| Game.World.HitEnemies | src/game.js:447-467 | the enemy scan reports a hit exactly when `FirstHit` finds one, and then leaves `Rules.StrikeEnemy` of the old state |
| Game.World.BulletTurn | src/game.js:429-470 | one body of the bullet loop leaves `Rules.ResolveBullet`'s state and keep flag |
| Game.World.MoveBullets | src/game.js:427-472 | the bullet loop leaves `Rules.BulletsPhase` of the old state |
| Game.World.AgeParticles | src/game.js:475-482 | the particle loop leaves the old state with the aged survivors as particles |
| Game.World.PowerupTurn | src/game.js:487-501 | one body of the pickup loop leaves `Rules.CollectPowerup`'s state and keep flag |
| Game.World.CollectPowerups | src/game.js:485-503 | the pickup loop leaves `Rules.PowerupsPhase` of the old state |
| Game.World.ExpireBuff | src/game.js:506 | buff expiry leaves `Rules.ExpireBuff` of the old state |
| Game.World.Update | src/game.js:350-507 | `update(dt)` leaves `Rules.Step` of the old state and keeps the frame invariant |

## Left out

- Rendering, themes and the star field: canvas drawing, plus the star field's own `Math.random()` calls, which do not affect the simulation.
- Web Audio sound effects: a foreign API with no effect on the state.
- The DOM HUD (`updateHUD`) and the theme button: UI output only.
- The keyboard, mouse and touch handlers are not modelled. The input they collect (movement keys, mouse aim, the fire button, and the touch fire button, which sets the mouse button) is the `Command` parameter. Only the pause handlers (`Game.World.TogglePause`) and the restart button (`Game.World.ResetGame`) are modelled.
- The on-screen joystick (src/game.js:674-694) writes only its own touch state. The frame update reads movement from the keys alone (src/game.js:370-374), so the joystick has no effect on the simulation and `Command` has no counterpart for it.
- Rules.PlayerBullets: the order of the kept bullets is not stated, only their membership and multiplicity. The frame overwrites the filtered list with the result of the bullet loop (src/game.js:472) before anything reads it.
- `localStorage`: the stored high score and best wave are the `Records` value. The fallback values of the loaders (0 and 1) are not modelled.
- `requestAnimationFrame`, `tick` and `performance.now()`: `dt` and `t` are parameters, and `Game.World.Update` requires `0 <= dt <= 0.033`, the cap `tick` applies.
- The source calls `now()` several times within one frame, microseconds apart. The model uses a single `t` for the whole frame.
- `Math.atan2`, `Math.cos` and `Math.sin`: the facing angles of player and enemies are not modelled.
- `Math.hypot` is not modelled. It is an uninterpreted parameter, so no contract depends on its value (normalised directions are not proved to have length 1).
- Particles keep only their remaining life. Position, velocity, damping, alpha, size and colour are not modelled. The random draws for angle, speed and size are still counted.
- IEEE 754 floating point: coordinates, times and probabilities are exact reals, with no rounding and no NaN.
- The powerup colour is looked up from its kind only when drawing and is not modelled; the `r` and `pulse` fields are (`r` for the pickup test, `pulse` advanced by 6 per second).
- Game.World.Update: requires the frame invariant and a random stream in [0, 1), both established by the constructor and kept by every frame. The source needs neither to run; they only carry the invariant.
