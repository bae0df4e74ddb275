# Joshua's Bad Week — a verified model of the game core

Joshua's Bad Week is a MonoGame arcade game. The player, a yellow square, has
to survive two minutes on an 800 x 600 screen. Enemies come on faster and
faster as the game goes on:

- **Kezia** homes in on the player for five seconds, then flies straight on.
- **Joel** drives to a point just inside its spawn edge. It then turns toward
  the player and fires a **Card** every 1.5 seconds for eight seconds, and
  finally retreats toward its spawn point. It is removed only once it is
  more than 30 pixels off screen, but its spawn point is 10 pixels off
  screen, so a Joel that has made it back there stays alive and can still
  touch a player at the wall.

Each enemy is announced one second ahead by a **spawn warning** at the screen
edge. Any hit costs one point of health, and the game is lost at zero health.

This project models the game's logic in Dafny:

- the enemy entities;
- the enemy manager that spawns, updates, prunes and collides them;
- the game-state clock;
- the player;
- the particles and the particle system;
- one frame of the game loop.

Each entity whose fields the game updates in place is a Dafny `class` with
those fields. Its `State()` snapshot is a datatype, and its `Update` method is
proved to perform a pure step function (`KeziaEntity.Step`,
`JoelEntity.Step`, …). The properties the game relies on are proved about
those functions as lemmas. Loops that prune lists by reverse-index `RemoveAt`
are `while` loops with invariants, proved against recursive pass functions.

Modelling conventions:

- Time is a `real` number of seconds. Floats are reals.
- The C# `(int)` cast is `Geometry.Trunc`, which truncates toward zero.
- `Math.Atan2`, `Math.Cos`, `Math.Sin`, `Vector2.Length` and
  `Vector2.Normalize` are the fields of a `Geometry.Trig` value. They may be
  any functions, so every result holds whatever they compute.
- Every `Random` draw is a parameter.
- The constants are those of `Config/GameConfig.cs`, in `config.dfy`.

Module layout, one file per source class:

| file | module | models |
|---|---|---|
| config.dfy | GameConfig | `GameConfig` |
| geometry.dfy | Geometry | `Vector2`, `Rectangle`, `MathHelper`, the shared turn step |
| lists.dfy | Lists | `List.RemoveAt`, `Count(e => e.IsAlive)` |
| kezia.dfy | KeziaEntity | `Kezia` |
| joel.dfy | JoelEntity | `Joel` |
| card.dfy | CardEntity | `Card` |
| spawning.dfy | Spawning | the spawn rules of `EnemyManager`, `SpawnWarning` |
| enemy_manager.dfy | EnemyManagement | `EnemyManager` |
| game_state.dfy | GameStateManagement | `GameStateManager` |
| player.dfy | PlayerEntity | `Player` |
| particle.dfy | ParticleEffect | `Particle`, `ParticleType` |
| particle_system.dfy | ParticleSystems | `ParticleSystem` |
| game.dfy | GameLoop | `Game1.Initialize` and `Game1.Update` |

## Model

| member | source | states |
|---|---|---|
| Geometry.HalfTowardZero | joshuas_bad_week/Effects/ParticleSystem.cs:119-122 | C# `count / 2`: twice the result is within one of `count`, rounded toward zero on both signs |
| Geometry.Trunc | joshuas_bad_week/Entities/Kezia.cs:106-111 | the `(int)` cast of a float truncates toward zero, for both signs |
| Geometry.Ceiling | joshuas_bad_week/Managers/GameStateManager.cs:25 | `Math.Ceiling`: the least integer not below the value |
| Geometry.WrapAngle | joshuas_bad_week/Entities/Kezia.cs:70 | `MathHelper.WrapAngle` lands in (-Pi, Pi] and keeps an angle already there |
| Geometry.WrapAngleSameAngle | joshuas_bad_week/Entities/Kezia.cs:70 | wrapping changes an angle only by whole turns |
| Geometry.TurnApproaches | joshuas_bad_week/Entities/Kezia.cs:70-80 | the rate-limited turn never overshoots: it snaps to the target within reach, and otherwise moves exactly the maximum toward it and leaves a same-signed remainder that is smaller by that much |
| PlayerEntity.InputDirection | joshuas_bad_week/Entities/Player.cs:90-104 | each axis is -1, 0 or +1; it is 0 exactly when both or neither opposing keys are held, and -1 exactly for Up or Left alone |
| PlayerEntity.Constrain | joshuas_bad_week/Entities/Player.cs:106-123 | the result keeps the square on screen, leaves an on-screen position alone, and moves each coordinate only to the edge it crossed |
| PlayerEntity.ConstrainIdempotent | joshuas_bad_week/Entities/Player.cs:106-123 | constraining twice is constraining once |
| PlayerEntity.Initial | joshuas_bad_week/Entities/Player.cs:28-44 | a new player has InitialHealth, is at rest at its start, and has its box there |
| PlayerEntity.StepFacts | joshuas_bad_week/Entities/Player.cs:53-88 | after an update the player is on screen at the constrained new position, its health is untouched, its last position is the old one, and its box follows the truncated centre |
| PlayerEntity.BoxOnScreen | joshuas_bad_week/Entities/Player.cs:76-88 | a full-size box never leaves the screen after an update |
| PlayerEntity.Steering | joshuas_bad_week/Entities/Player.cs:55-74 | no net key stops the player and keeps its rotation; one axis moves it at PlayerSpeed; a diagonal is scaled by DiagonalMovementNormalizer; the player faces its heading |
| PlayerEntity.Damaged | joshuas_bad_week/Entities/Player.cs:125-128 | health falls by the damage, never below zero, and nothing else changes |
| PlayerEntity.Player.constructor | joshuas_bad_week/Entities/Player.cs:28-44 | the new player's state is `Initial` |
| PlayerEntity.Player.Update | joshuas_bad_week/Entities/Player.cs:53-88 | the fields change exactly as `Step` says |
| PlayerEntity.Player.TakeDamage | joshuas_bad_week/Entities/Player.cs:125-128 | the fields change exactly as `Damaged` says |
| GameStateManagement.Initial | joshuas_bad_week/Managers/GameStateManager.cs:30-34 | a new game is playing with GameDurationSeconds on the clock |
| GameStateManagement.TickClock | joshuas_bad_week/Managers/GameStateManager.cs:36-48 | only a playing game counts down; reaching zero wins with the clock at exactly zero; the remaining time never grows |
| GameStateManagement.LoseClock | joshuas_bad_week/Managers/GameStateManager.cs:50-56 | only a playing game can become GameOver, and the time is kept |
| GameStateManagement.PauseClock | joshuas_bad_week/Managers/GameStateManager.cs:64-68 | only a playing game pauses, and the time is kept |
| GameStateManagement.ResumeClock | joshuas_bad_week/Managers/GameStateManager.cs:70-74 | only a paused game resumes, and the time is kept |
| GameStateManagement.Seconds | joshuas_bad_week/Managers/GameStateManager.cs:25 | the remaining time rounded up to whole seconds, never negative when the time is not |
| GameStateManagement.OperationsKeepValid | joshuas_bad_week/Managers/GameStateManager.cs:30-74 | every operation keeps the time in [0, GameDurationSeconds] and zero exactly when won |
| GameStateManagement.EndedIsFinal | joshuas_bad_week/Managers/GameStateManager.cs:36-74 | a won or lost game is unchanged by update, game-over, pause and resume |
| GameStateManagement.PauseResume | joshuas_bad_week/Managers/GameStateManager.cs:36-74 | a paused clock is frozen, pause then resume restores a playing game, and game-over is idempotent |
| GameStateManagement.RunValid | joshuas_bad_week/Managers/GameStateManager.cs:36-48 | any run of forward updates keeps the clock valid and leaves an ended game as it was |
| GameStateManagement.RunOut | joshuas_bad_week/Managers/GameStateManager.cs:36-48 | playing uninterrupted for the remaining time wins the game |
| GameStateManagement.GameStateManager.constructor | joshuas_bad_week/Managers/GameStateManager.cs:30-34 | the new manager's state is `Initial` |
| GameStateManagement.GameStateManager.TimeRemainingSeconds | joshuas_bad_week/Managers/GameStateManager.cs:25 | the value is `Seconds` of the state |
| GameStateManagement.GameStateManager.Update | joshuas_bad_week/Managers/GameStateManager.cs:36-48 | the fields change exactly as `TickClock` says |
| GameStateManagement.GameStateManager.SetGameOver | joshuas_bad_week/Managers/GameStateManager.cs:50-56 | the fields change exactly as `LoseClock` says |
| GameStateManagement.GameStateManager.Reset | joshuas_bad_week/Managers/GameStateManager.cs:58-62 | the state is back to `Initial` |
| GameStateManagement.GameStateManager.Pause | joshuas_bad_week/Managers/GameStateManager.cs:64-68 | the fields change exactly as `PauseClock` says |
| GameStateManagement.GameStateManager.Resume | joshuas_bad_week/Managers/GameStateManager.cs:70-74 | the fields change exactly as `ResumeClock` says |
| ParticleEffect.Initial | joshuas_bad_week/Effects/Particle.cs:23-35 | a new particle has full life at its position and velocity, with no rotation or spin |
| ParticleEffect.Step | joshuas_bad_week/Effects/Particle.cs:37-55 | a dead particle is untouched; a live one loses dt of life, drifts by its velocity and spins; its kind, velocity, scale and maximum life never change |
| ParticleEffect.Lifetime | joshuas_bad_week/Effects/Particle.cs:21-55 | a particle is alive, with exactly its life less the elapsed time left, while less than its life has passed, and dead once at least its life has passed |
| ParticleEffect.DeadStaysDead | joshuas_bad_week/Effects/Particle.cs:37-39 | no update revives a dead particle |
| ParticleEffect.Particle.constructor | joshuas_bad_week/Effects/Particle.cs:23-35 | the new particle's state is `Initial` |
| ParticleEffect.Particle.IsAlive | joshuas_bad_week/Effects/Particle.cs:21 | alive exactly while life is positive |
| ParticleEffect.Particle.Update | joshuas_bad_week/Effects/Particle.cs:37-55 | the fields change exactly as `Step` says |
| ParticleSystems.SurvivorsMembers | joshuas_bad_week/Effects/ParticleSystem.cs:48-61 | pruning keeps exactly the live particles |
| ParticleSystems.SurvivorsBounded | joshuas_bad_week/Effects/ParticleSystem.cs:48-61 | pruning keeps the list distinct and never adds particles of any kind |
| ParticleSystems.BurstSize | joshuas_bad_week/Effects/ParticleSystem.cs:96-97 | -1 stands for SpawnBurstParticleCount, any other non-negative count is used as given, and a count below -1 adds nothing |
| ParticleSystems.EnhancedSize | joshuas_bad_week/Effects/ParticleSystem.cs:116-141 | the particles added for `count`: twice its C# half when non-negative, a default burst for -2 and -3, none otherwise |
| ParticleSystems.ParticleSystem.constructor | joshuas_bad_week/Effects/ParticleSystem.cs:19-23 | a new system holds no particles |
| ParticleSystems.ParticleSystem.ParticleCount | joshuas_bad_week/Effects/ParticleSystem.cs:205 | the number of particles held |
| ParticleSystems.ParticleSystem.Update | joshuas_bad_week/Effects/ParticleSystem.cs:48-61 | every particle is updated once by `Step`, the list becomes exactly its survivors in order, all of them alive, and the Ambient cap still holds |
| ParticleSystems.ParticleSystem.Prune | joshuas_bad_week/Effects/ParticleSystem.cs:51-60 | the reverse loop updates every particle once and leaves exactly the survivors |
| ParticleSystems.ParticleSystem.UpdateAt | joshuas_bad_week/Effects/ParticleSystem.cs:53-59 | one iteration updates particle `i` alone and removes it if it died |
| ParticleSystems.ParticleSystem.AddPlayerTrail | joshuas_bad_week/Effects/ParticleSystem.cs:74-91 | PlayerTrailParticleCount new PlayerTrail particles at the position are appended, with lives in the trail range |
| ParticleSystems.ParticleSystem.AddSpawnBurst | joshuas_bad_week/Effects/ParticleSystem.cs:94-113 | `BurstSize(count)` new SpawnBurst particles at the position are appended, with lives in the burst range |
| ParticleSystems.ParticleSystem.AddEnhancedSpawnBurst | joshuas_bad_week/Effects/ParticleSystem.cs:116-141 | `EnhancedSize(count)` new SpawnBurst particles at the edge position are appended |
| ParticleSystems.ParticleSystem.AddDamageEffect | joshuas_bad_week/Effects/ParticleSystem.cs:144-161 | DamageEffectParticleCount new DamageEffect particles at the position are appended, with lives in the damage range and no spin |
| ParticleSystems.ParticleSystem.AddAmbientParticle | joshuas_bad_week/Effects/ParticleSystem.cs:164-188 | nothing changes once MaxAmbientParticles Ambient particles exist; otherwise one Ambient particle at the drawn place on screen is appended |
| ParticleSystems.ParticleSystem.AmbientCount | joshuas_bad_week/Effects/ParticleSystem.cs:167 | the scan counts exactly the Ambient particles |
| ParticleSystems.ParticleSystem.AddCardTrail | joshuas_bad_week/Effects/ParticleSystem.cs:191-203 | one new CardTrail particle at the position is appended, with a life in the card-trail range and no spin |
| KeziaEntity.Bounds | joshuas_bad_week/Entities/Kezia.cs:104-112 | a KeziaWidth x KeziaHeight box whose centre is within one pixel of the position |
| KeziaEntity.Initial | joshuas_bad_week/Entities/Kezia.cs:27-37 | a new Kezia is alive, tracking, at rest at its start with the given rotation and its box there |
| KeziaEntity.Step | joshuas_bad_week/Entities/Kezia.cs:46-102 | a dead Kezia is untouched; a live one ages by dt, stops tracking once KeziaTrackingDuration old, keeps its rotation when not tracking, flies at KeziaSpeed along its rotation, and dies exactly when it is off screen and no longer tracking |
| KeziaEntity.TrackingTurn | joshuas_bad_week/Entities/Kezia.cs:60-81 | while tracking, the turn lands on the heading to the player or moves exactly KeziaTurnRate * dt toward it, by a wrapped difference naming the same angle |
| KeziaEntity.InitialValid | joshuas_bad_week/Entities/Kezia.cs:27-37 | a new Kezia satisfies the tracking invariant |
| KeziaEntity.StepValid | joshuas_bad_week/Entities/Kezia.cs:46-57 | an update keeps the invariant that tracking means younger than KeziaTrackingDuration |
| KeziaEntity.MonotoneRun | joshuas_bad_week/Entities/Kezia.cs:46-102 | across any updates, tracking never resumes and a dead Kezia stays dead |
| KeziaEntity.ValidRun | joshuas_bad_week/Entities/Kezia.cs:46-57 | across any forward updates, a Kezia tracks exactly while younger than KeziaTrackingDuration |
| KeziaEntity.Kezia.constructor | joshuas_bad_week/Entities/Kezia.cs:27-37 | the new Kezia's state is `Initial` |
| KeziaEntity.Kezia.Update | joshuas_bad_week/Entities/Kezia.cs:46-102 | the fields change exactly as `Step` says |
| KeziaEntity.Kezia.TurnTowardPlayer | joshuas_bad_week/Entities/Kezia.cs:63-80 | only the rotation changes, by the turn toward the player |
| KeziaEntity.Kezia.CheckCollision | joshuas_bad_week/Entities/Kezia.cs:123-126 | a hit exactly when alive and the boxes intersect |
| KeziaEntity.Kezia.Destroy | joshuas_bad_week/Entities/Kezia.cs:128-131 | the Kezia is dead and nothing else changes |
| CardEntity.Bounds | joshuas_bad_week/Entities/Card.cs:70-78 | a CardWidth x CardHeight box whose centre is within one pixel of the position |
| CardEntity.Initial | joshuas_bad_week/Entities/Card.cs:26-39 | a new card is alive at its start, faces its direction, spins at 8 radians per second and flies at CardSpeed along the direction |
| CardEntity.Step | joshuas_bad_week/Entities/Card.cs:48-68 | a dead card is untouched; a live one moves by its fixed velocity, spins, and dies exactly when off screen |
| CardEntity.AliveThroughout | joshuas_bad_week/Entities/Card.cs:48-68 | a card alive after a run was alive at every step of it |
| CardEntity.VelocityFixed | joshuas_bad_week/Entities/Card.cs:48-68 | no run of updates changes a card's velocity or spin speed |
| CardEntity.StraightLine | joshuas_bad_week/Entities/Card.cs:48-68 | a card still alive has moved by its velocity times the total elapsed time |
| CardEntity.DeadStaysDead | joshuas_bad_week/Entities/Card.cs:50 | no update brings a dead card back |
| CardEntity.Card.constructor | joshuas_bad_week/Entities/Card.cs:26-39 | the new card's state is `Initial` |
| CardEntity.Card.Update | joshuas_bad_week/Entities/Card.cs:48-68 | the fields change exactly as `Step` says |
| CardEntity.Card.CheckCollision | joshuas_bad_week/Entities/Card.cs:89-92 | a hit exactly when alive and the boxes intersect |
| CardEntity.Card.Destroy | joshuas_bad_week/Entities/Card.cs:94-97 | the card is dead and nothing else changes |
| JoelEntity.Bounds | joshuas_bad_week/Entities/Joel.cs:273-281 | a JoelWidth x JoelHeight box whose centre is within one pixel of the position |
| JoelEntity.TargetPosition | joshuas_bad_week/Entities/Joel.cs:218-230 | the approach target is JoelApproachDistance inside the spawn edge and keeps the other coordinate; an unknown side targets the start |
| JoelEntity.Initial | joshuas_bad_week/Entities/Joel.cs:44-65 | a new Joel is alive and approaching, with every timer zero, at rest at its start, and turned with its short axis toward the screen centre (ApproachRotation) |
| JoelEntity.WrapDown | joshuas_bad_week/Entities/Joel.cs:142-143 | the first loop brings a difference above Pi into (-Pi, Pi] and leaves a smaller one alone |
| JoelEntity.WrapUp | joshuas_bad_week/Entities/Joel.cs:144-145 | the second loop brings a difference below -Pi into [-Pi, Pi) and leaves a larger one alone |
| JoelEntity.ShortestDifference | joshuas_bad_week/Entities/Joel.cs:142-145 | both loops give a difference in [-Pi, Pi] and leave one already there alone |
| JoelEntity.WrapDownSameAngle | joshuas_bad_week/Entities/Joel.cs:142-143 | the first loop removes whole turns only |
| JoelEntity.WrapUpSameAngle | joshuas_bad_week/Entities/Joel.cs:144-145 | the second loop adds whole turns only |
| JoelEntity.ShortestDifferenceSameAngle | joshuas_bad_week/Entities/Joel.cs:142-145 | the wrapped difference names the same angle as the raw one |
| JoelEntity.ApproachStep | joshuas_bad_week/Entities/Joel.cs:103-121 | the approach ends exactly within 5 pixels of the target, and Joel then stops with its state timer reset; otherwise only the velocity changes |
| JoelEntity.RetreatStep | joshuas_bad_week/Entities/Joel.cs:191-206 | a retreating Joel heads for its spawn point at JoelSpeed (its velocity is kept once it is exactly there), dies exactly when it is already off screen, and keeps its place and phase |
| JoelEntity.StepFacts | joshuas_bad_week/Entities/Joel.cs:74-101 | a dead Joel is untouched; a live one moves by its new velocity with its box following; the phase advances at most one place; only a retreating Joel dies, and exactly when off screen |
| JoelEntity.ApproachFacts | joshuas_bad_week/Entities/Joel.cs:103-121 | approaching ends exactly within 5 pixels of the target, and then Joel stands still with its timer reset; otherwise it heads for the target at JoelSpeed |
| JoelEntity.RetreatFacts | joshuas_bad_week/Entities/Joel.cs:191-206 | over a whole update, a retreating Joel moves toward its spawn point at JoelSpeed (keeping its velocity once exactly there), stays Retreating, and survives exactly while not off screen |
| JoelEntity.TrackingFacts | joshuas_bad_week/Entities/Joel.cs:123-189 | tracking Joel stands still and turns toward the player; it fires and resets the cadence when the fire timer reaches JoelCardFireRate, charging up from half a second before; it retreats, facing outward, exactly once JoelTrackingDuration has passed |
| JoelEntity.TrackingTurn | joshuas_bad_week/Entities/Joel.cs:135-156 | the turn lands on the heading or moves exactly JoelTurnRate * dt toward it, by a difference in [-Pi, Pi] naming the same angle |
| JoelEntity.InitialValid | joshuas_bad_week/Entities/Joel.cs:44-65 | a new Joel satisfies the timer invariants |
| JoelEntity.StepValid | joshuas_bad_week/Entities/Joel.cs:74-189 | an update keeps the charge-up and tracking-time invariants |
| JoelEntity.ForwardRun | joshuas_bad_week/Entities/Joel.cs:74-101 | across any run the phase never moves back, a dead Joel stays dead, and only a retreating Joel has died |
| JoelEntity.Joel.constructor | joshuas_bad_week/Entities/Joel.cs:44-65 | the new Joel's state is `Initial` |
| JoelEntity.Joel.Update | joshuas_bad_week/Entities/Joel.cs:74-101 | the fields change exactly as `Step` says, and the card list grows by exactly the one new card fired along the short axis exactly on a firing tick |
| JoelEntity.Joel.MoveBy | joshuas_bad_week/Entities/Joel.cs:96-100 | the position advances by the velocity and the box follows |
| JoelEntity.Joel.UpdatePhase | joshuas_bad_week/Entities/Joel.cs:81-94 | the phase handler runs, and a card is fired exactly on a tracking tick that reaches JoelCardFireRate |
| JoelEntity.Joel.UpdateApproaching | joshuas_bad_week/Entities/Joel.cs:103-121 | the fields change exactly as `ApproachStep` says |
| JoelEntity.Joel.UpdateTracking | joshuas_bad_week/Entities/Joel.cs:123-189 | the fields change as the tracking step says, and one card is fired exactly when the fire timer reaches JoelCardFireRate |
| JoelEntity.Joel.UpdateCadence | joshuas_bad_week/Entities/Joel.cs:160-180 | the fire timer and charge-up advance, and a card is fired exactly when the timer reaches JoelCardFireRate |
| JoelEntity.Joel.TurnTowardPlayer | joshuas_bad_week/Entities/Joel.cs:135-156 | only the rotation changes, by the wrapped, rate-limited turn |
| JoelEntity.Joel.UpdateRetreating | joshuas_bad_week/Entities/Joel.cs:191-206 | the fields change exactly as `RetreatStep` says |
| JoelEntity.Joel.FireCard | joshuas_bad_week/Entities/Joel.cs:208-216 | exactly one new card is appended at Joel's position, along its short axis |
| JoelEntity.Joel.CheckCollision | joshuas_bad_week/Entities/Joel.cs:292-295 | a hit exactly when alive and the boxes intersect |
| JoelEntity.Joel.Destroy | joshuas_bad_week/Entities/Joel.cs:297-300 | the Joel is dead and nothing else changes |
| Spawning.SpawnInterval | joshuas_bad_week/Managers/EnemyManager.cs:163-176 | the interval lies in [MinSpawnInterval, InitialSpawnInterval], starts at InitialSpawnInterval and is MinSpawnInterval from DifficultyRampDuration on |
| Spawning.SpawnIntervalMonotone | joshuas_bad_week/Managers/EnemyManager.cs:163-176 | the interval never grows as game time passes |
| Spawning.ScreenEdgePosition | joshuas_bad_week/Managers/EnemyManager.cs:221-237 | the result is on screen; an on-screen coordinate is kept and a crossed edge pulls the coordinate 5 pixels inside it |
| Spawning.ScreenEdgeIdempotent | joshuas_bad_week/Managers/EnemyManager.cs:221-237 | mapping to the edge twice is mapping once |
| Spawning.SpawnPositionForSide | joshuas_bad_week/Managers/EnemyManager.cs:279-301 | each side puts the position `distance` beyond its edge at the drawn place along it; any other side gives the origin |
| Spawning.SpawnBeyondEdge | joshuas_bad_week/Managers/EnemyManager.cs:272-301 | every spawn position is strictly off screen, and its warning is 5 pixels inside the same edge at the same place along it |
| Spawning.NewWarning | joshuas_bad_week/Managers/EnemyManager.cs:178-219 | a new warning starts at zero with one second to go; coin 0 announces a Kezia with side -1, any other coin a Joel on the drawn side; it is shown at the edge position of an off-screen spawn point |
| Spawning.SpawnBeyondEdgeFor | joshuas_bad_week/Managers/EnemyManager.cs:279-301 | any valid roll spawns strictly off screen |
| Spawning.RetreatAtSpawnSurvives | joshuas_bad_week/Entities/Joel.cs:191-206 | a retreating Joel back at its spawn point, JoelSpawnDistance beyond the edge, is not off screen by its 30-pixel margin, so it survives the update and keeps retreating |
| Spawning.Tick | joshuas_bad_week/Managers/EnemyManager.cs:76-78 | every warning's timer advances by dt and nothing else changes |
| Spawning.WarningsResolve | joshuas_bad_week/Managers/EnemyManager.cs:76-92 | each warning either stays pending or becomes exactly one enemy of its own kind: as many Kezias as complete Kezia warnings, as many Joels as complete Joel warnings, and the pending ones are exactly the incomplete ones |
| Spawning.JoelsFromWarnings | joshuas_bad_week/Managers/EnemyManager.cs:86-89 | every Joel spawned starts from a complete Joel warning's position and recorded side |
| Spawning.KeziasFromWarnings | joshuas_bad_week/Managers/EnemyManager.cs:82-85 | every Kezia spawned starts from a complete Kezia warning's position, facing the screen centre |
| Spawning.JoelWarningsSpawn | joshuas_bad_week/Managers/EnemyManager.cs:86-89 | every complete Joel warning spawns a Joel at its position on its recorded side |
| Spawning.KeziaWarningsSpawn | joshuas_bad_week/Managers/EnemyManager.cs:82-85 | every complete Kezia warning spawns a Kezia at its position, facing the screen centre |
| Spawning.SpawnWarning.constructor | joshuas_bad_week/Managers/EnemyManager.cs:463-471 | the new warning holds the given data and a zero timer |
| Spawning.SpawnWarning.IsComplete | joshuas_bad_week/Managers/EnemyManager.cs:458 | complete exactly when the timer has reached the duration |
| Spawning.SpawnWarning.Update | joshuas_bad_week/Managers/EnemyManager.cs:473-476 | only the timer changes, by dt |
| EnemyManagement.KeziaPassAlive | joshuas_bad_week/Managers/EnemyManager.cs:102-120 | the Kezia loop adds nothing and keeps exactly the Kezias alive after their update |
| EnemyManagement.JoelPassAlive | joshuas_bad_week/Managers/EnemyManager.cs:122-140 | the Joel loop adds nothing and keeps exactly the Joels alive after their update |
| EnemyManagement.CardPassAlive | joshuas_bad_week/Managers/EnemyManager.cs:142-160 | the Card loop adds nothing and keeps exactly the Cards alive after their update |
| EnemyManagement.VolleySize | joshuas_bad_week/Managers/EnemyManager.cs:122-140 | the Joel loop fires at most one card per Joel, and none when no Joel is tracking |
| EnemyManagement.SpawnKeziaAtPosition | joshuas_bad_week/Managers/EnemyManager.cs:239-256 | one live, tracking Kezia at the position, facing the screen centre, is appended and the rest is kept |
| EnemyManagement.SpawnJoelAtPosition | joshuas_bad_week/Managers/EnemyManager.cs:258-270 | one live, approaching Joel at the position on the given side is appended and the rest is kept |
| EnemyManagement.ResolveWarnings | joshuas_bad_week/Managers/EnemyManager.cs:75-92 | the loop leaves exactly the pending ticked warnings and appends exactly the enemies the complete ones spawn |
| EnemyManagement.UpdateKezias | joshuas_bad_week/Managers/EnemyManager.cs:102-120 | the loop leaves exactly the Kezia pass |
| EnemyManagement.UpdateJoels | joshuas_bad_week/Managers/EnemyManager.cs:122-140 | the loop leaves exactly the Joel pass and appends exactly the cards fired |
| EnemyManagement.UpdateCards | joshuas_bad_week/Managers/EnemyManager.cs:142-160 | the loop leaves exactly the Card pass |
| EnemyManagement.EnemyCount | joshuas_bad_week/Managers/EnemyManager.cs:31 | at most the number of listed Kezias and Joels |
| EnemyManagement.EnemyCountAll | joshuas_bad_week/Managers/EnemyManager.cs:31 | the count equals the list lengths exactly when every listed enemy is alive |
| EnemyManagement.AdvanceSpawns | joshuas_bad_week/Managers/EnemyManager.cs:94-100 | the game time advances by dt; when the spawn timer reaches the interval, exactly one warning is added last and the timer restarts at zero; otherwise the timer advances and no warning is added |
| EnemyManagement.AdvanceResolves | joshuas_bad_week/Managers/EnemyManager.cs:76-92 | each warning that completes in an update becomes exactly one enemy of its kind, appended after the existing ones: the Kezia and Joel lists grow by the complete warnings of their kind, each such warning's enemy is in its list, and the warnings left are exactly the incomplete ones |
| EnemyManagement.AdvanceAllAlive | joshuas_bad_week/Managers/EnemyManager.cs:102-160 | after an update every listed entity is alive, so the enemy count is the list lengths |
| EnemyManagement.FirstKeziaHit | joshuas_bad_week/Managers/EnemyManager.cs:306-313 | the index of the first Kezia that hits, or the length |
| EnemyManagement.FirstJoelHit | joshuas_bad_week/Managers/EnemyManager.cs:316-323 | the index of the first Joel that hits, or the length |
| EnemyManagement.FirstCardHit | joshuas_bad_week/Managers/EnemyManager.cs:326-333 | the index of the first card that hits, or the length |
| EnemyManagement.CollisionFacts | joshuas_bad_week/Managers/EnemyManager.cs:303-336 | a collision is reported exactly when some live entity's box meets the player's; then exactly one entity dies; otherwise nothing changes; lists and timers are kept |
| EnemyManagement.EnemyManager.constructor | joshuas_bad_week/Managers/EnemyManager.cs:33-44 | a new manager has no entities, no warnings and zero timers |
| EnemyManagement.EnemyManager.TotalEnemyCount | joshuas_bad_week/Managers/EnemyManager.cs:31 | the value is `EnemyCount` of the state |
| EnemyManagement.EnemyManager.Update | joshuas_bad_week/Managers/EnemyManager.cs:67-161 | an inactive game changes nothing; an active one changes the state exactly as `Advance` says |
| EnemyManagement.EnemyManager.UpdateWarnings | joshuas_bad_week/Managers/EnemyManager.cs:69-92 | both timers advance and the warnings pass runs |
| EnemyManagement.EnemyManager.UpdateEntities | joshuas_bad_week/Managers/EnemyManager.cs:102-160 | the Kezia, Joel and Card loops run in that order |
| EnemyManagement.EnemyManager.InitiateSpawnWarning | joshuas_bad_week/Managers/EnemyManager.cs:178-219 | exactly one new warning is appended and nothing else changes |
| EnemyManagement.EnemyManager.CheckCollisions | joshuas_bad_week/Managers/EnemyManager.cs:303-336 | the result is whether anything hits, and only the first hit in Kezia, Joel, Card order is destroyed |
| EnemyManagement.EnemyManager.Reset | joshuas_bad_week/Managers/EnemyManager.cs:420-430 | no entities, no warnings, both timers zero |
| EnemyManagement.EnemyManager.Clear | joshuas_bad_week/Managers/EnemyManager.cs:432-440 | no entities and no warnings, but both timers kept |
| GameLoop.FrameFrozen | joshuas_bad_week/Game1.cs:86-113 | once the clock is not playing after its tick, the player and the enemies are frozen and only the clock moves |
| GameLoop.FrameDamage | joshuas_bad_week/Game1.cs:98-112 | in any world with non-negative health and health left while playing, a frame costs exactly KeziaDamage health when an enemy meets the player, nothing otherwise, and health stays non-negative |
| GameLoop.FrameHealthy | joshuas_bad_week/Game1.cs:35-112 | the initial world and every frame keep health non-negative and positive until the game is lost, so the frame whose hit empties health is the one that ends the game |
| GameLoop.SpawnPointJoelHitsWallPlayer | joshuas_bad_week/Entities/Joel.cs:273-295 | a live Joel at a left-edge spawn point is not off screen and its box meets that of a player pressed against the left wall at the same height |
| GameLoop.FrameGameOver | joshuas_bad_week/Game1.cs:86-112 | the game is over after a frame exactly when it was over already, or that frame's hit left the player with no health |
| GameLoop.FrameAmbient | joshuas_bad_week/Game1.cs:78-84 | the ambient timer restarts at zero once it reaches 0.1 seconds and accumulates otherwise, staying in [0, 0.1) |
| GameLoop.FrameEnemies | joshuas_bad_week/Game1.cs:94-112 | after a playing frame exactly one fewer entity is alive when the player was hit, and none fewer otherwise |
| GameLoop.Game.constructor | joshuas_bad_week/Game1.cs:35-50 | fresh managers, a zero ambient timer and the player at the screen centre |
| GameLoop.Game.Update | joshuas_bad_week/Game1.cs:67-116 | the state changes exactly as `Frame` says, and the particles become the survivors plus one ambient particle when due and under the cap, plus the damage effect on a hit |
| GameLoop.Game.Ambience | joshuas_bad_week/Game1.cs:74-84 | the particles update and the ambient timer fires at 0.1 seconds, adding one ambient particle when under the cap |
| GameLoop.Game.Play | joshuas_bad_week/Game1.cs:86-113 | the clock ticks, then an active game moves and collides; the damage effect is added exactly on a hit |
| GameLoop.Game.Move | joshuas_bad_week/Game1.cs:92-96 | the player moves, then the enemies update against the moved player |
| GameLoop.Game.Collide | joshuas_bad_week/Game1.cs:98-112 | a hit destroys the enemy, costs health, adds the damage effect and at zero health ends the game |

## Left out

- Rendering is not modelled: every `Draw`, `LoadContent`, texture, colour,
  glow and fade. This includes the particle trails and bursts that the
  entities' and warnings' `Draw` methods emit, and the trail timers that pace
  them. `UIManager`, `VisualEffects` (including the screen shake `Game1.Update`
  triggers on a hit) and `Program` are not part of this model.
- `EnemyManager.LoadContentForNewEnemies` and the `_spawnPositions` /
  `_spawnTypes` lists feed only drawing and are not modelled.
- Keyboard and gamepad reading and `Exit` are not modelled. `Player.Update`
  takes the four arrow-key states as booleans.
- Floats are modelled as exact reals. Rounding and overflow of 32-bit floats
  are not modelled.
- Trigonometry, vector length and normalisation are uninterpreted functions.
  So the model proves nothing that depends on their values, for example that
  a normalised vector has length one.
- Random values are parameters. The model does not constrain their
  distribution, only the ranges the source draws them in.
- The enemy manager holds its Kezias, Joels, Cards and warnings as values
  (sequences of state datatypes), not as lists of objects. So it does not
  model object identity or aliasing between lists. The entity classes'
  `Update` methods are proved to perform exactly the `Step` functions the
  manager applies.
- JoelEntity.Joel.Update appends real `Card` objects to a sequence it
  returns, while the manager's Joel loop appends the `CardState` values those
  cards are built from.
- GameLoop.Game.Update states the particle list only as the survivors plus
  the particles added. The per-particle step is stated by
  ParticleSystems.ParticleSystem.Update, which it calls.
- ParticleSystems.ParticleSystem.AddEnhancedSpawnBurst states the number, kind
  and position of the particles it adds, but not their lives, speeds or
  spread.
- CardEntity.Step states only the rotation a card's spin adds in one update.
  The spin is drawn, never tested, and its total over many updates is not
  stated.
- ParticleSystems.ParticleSystem.AddPlayerTrail,
  ParticleSystems.ParticleSystem.AddSpawnBurst,
  ParticleSystems.ParticleSystem.AddDamageEffect,
  ParticleSystems.ParticleSystem.AddAmbientParticle and
  ParticleSystems.ParticleSystem.AddCardTrail state each new particle's
  position, kind and life range; AddDamageEffect and AddCardTrail also
  state that their particles do not spin. The drawn velocity and scale,
  and the drawn spin of the other emitters, are not stated.
