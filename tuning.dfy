/** The game's fixed configuration: arena size, player, enemy, bullet and powerup
    constants, and the per-variant enemy table. */
module Tuning {

  const Width: real := 960.0
  const Height: real := 600.0

  const PlayerRadius: real := 18.0
  const PlayerSpeed: real := 220.0
  const PlayerFireCooldown: real := 0.25
  const PlayerBulletSpeed: real := 520.0
  const MaxLives: int := 3

  const EnemyRadius: real := 16.0
  const SpawnIntervalBase: real := 6.0
  const EnemyBulletSpeed: real := 440.0
  const EnemyFireCooldown: real := 1.2

  const BulletRadius: real := 4.0
  const BulletLifetime: real := 2.2

  const PowerupRadius: real := 10.0
  /** Unclaimed powerups disappear after this many seconds. */
  const PowerupLifetime: real := 12.0
  /** A picked rapid powerup lasts this many seconds. */
  const RapidDuration: real := 6.0
  /** The player's fire cooldown is multiplied by this while rapid is active. */
  const RapidFactor: real := 0.4

  /** Particles added by one explosion. */
  const BurstSize: nat := 18

  /** The three enemy archetypes. */
  datatype Variant = Scout | Heavy | Sniper

  /** Movement speed; every variant overrides the enemy default of 140. */
  function Speed(v: Variant): (speed: real)
    ensures 90.0 <= speed <= 180.0
    ensures speed == 90.0 <==> v == Heavy
  {
    match v
    case Scout => 180.0
    case Heavy => 90.0
    case Sniper => 120.0
  }

  /** Hit points a freshly spawned enemy of this variant has. */
  function MaxHp(v: Variant): (hp: int)
    ensures 1 <= hp <= 3
    ensures hp == 3 <==> v == Heavy
  {
    match v
    case Scout => 1
    case Heavy => 3
    case Sniper => 1
  }

  /** Points scored for destroying an enemy of this variant. */
  function ScoreValue(v: Variant): (points: int)
    ensures points >= 10
  {
    match v
    case Scout => 10
    case Heavy => 25
    case Sniper => 20
  }

  /** Seconds between shots; only the sniper overrides the enemy default. */
  function FireInterval(v: Variant): (cd: real)
    ensures cd > 0.0
    ensures v != Sniper ==> cd == EnemyFireCooldown
  {
    if v == Sniper then 1.6 else EnemyFireCooldown
  }

  /** Bullet speed; only the sniper overrides the enemy default. */
  function ShotSpeed(v: Variant): (speed: real)
    ensures speed >= EnemyBulletSpeed
  {
    if v == Sniper then 560.0 else EnemyBulletSpeed
  }
}
