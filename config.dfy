/**
 * The gameplay constants of `GameConfig` (colours, glow sizes and other
 * rendering-only settings are not part of this model). Floats are written
 * as the exact decimals of their source literals.
 */
module GameConfig {

  // Screen
  const ScreenWidth: int := 800
  const ScreenHeight: int := 600

  // Player
  const PlayerSize: int := 20
  const PlayerSpeed: real := 200.0
  const DiagonalMovementNormalizer: real := 0.707

  // Game
  const GameDurationSeconds: int := 120
  const InitialHealth: int := 10

  // Kezia (homing enemy)
  const KeziaWidth: int := 20
  const KeziaHeight: int := 10
  const KeziaSpeed: real := 120.0
  const KeziaTrackingDuration: real := 5.0
  const KeziaTurnRate: real := 2.0
  const KeziaDamage: int := 1
  const KeziaSpawnDistance: real := 10.0

  // Difficulty ramp
  const InitialSpawnInterval: real := 2.0
  const MinSpawnInterval: real := 0.3
  const DifficultyRampDuration: real := 90.0

  // Joel (turret enemy)
  const JoelWidth: int := 30
  const JoelHeight: int := 15
  const JoelSpeed: real := 100.0
  const JoelApproachDistance: real := 50.0
  const JoelTrackingDuration: real := 8.0
  const JoelTurnRate: real := 5.0
  const JoelCardFireRate: real := 1.5
  const JoelDamage: int := 1
  const JoelSpawnDistance: real := 10.0

  // Card (projectile)
  const CardWidth: int := 6
  const CardHeight: int := 4
  const CardSpeed: real := 150.0
  const CardDamage: int := 1

  // Particles
  const MaxAmbientParticles: int := 50

  const PlayerTrailParticleCount: int := 3
  const PlayerTrailVelocityRange: real := 20.0
  const PlayerTrailScaleMin: real := 0.5
  const PlayerTrailScaleMax: real := 1.0
  const PlayerTrailLifeMin: real := 0.5
  const PlayerTrailLifeMax: real := 1.0
  const PlayerTrailRotationSpeedRange: real := 4.0

  const SpawnBurstParticleCount: int := 15
  const SpawnBurstSpeedMin: real := 50.0
  const SpawnBurstSpeedMax: real := 150.0
  const SpawnBurstScaleMin: real := 0.3
  const SpawnBurstScaleMax: real := 1.0
  const SpawnBurstLifeMin: real := 0.8
  const SpawnBurstLifeMax: real := 1.2
  const SpawnBurstRotationSpeedRange: real := 8.0

  const DamageEffectParticleCount: int := 8
  const DamageEffectSpeedMin: real := 80.0
  const DamageEffectSpeedMax: real := 120.0
  const DamageEffectScaleMin: real := 0.4
  const DamageEffectScaleMax: real := 1.0
  const DamageEffectLifeMin: real := 0.3
  const DamageEffectLifeMax: real := 0.6

  const AmbientVelocityRange: real := 10.0
  const AmbientScaleMin: real := 2.0
  const AmbientScaleMax: real := 4.0
  const AmbientLifeMin: real := 5.0
  const AmbientLifeMax: real := 15.0
  const AmbientRotationSpeedRange: real := 1.0

  const CardTrailVelocityRange: real := 30.0
  const CardTrailScaleMin: real := 1.0
  const CardTrailScaleMax: real := 3.0
  const CardTrailLifeMin: real := 0.3
  const CardTrailLifeMax: real := 0.5
}
