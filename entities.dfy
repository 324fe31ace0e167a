/** The records the simulation works on and the functions that create them. */
module Entities {
  import opened Geometry
  import opened Tuning
  import opened Director

  /** The successive values of `Math.random()`: call number k returns `rnd(k)`. */
  type Rand = nat -> real

  /** `Math.hypot`. */
  type Hypot = (real, real) -> real

  /** Every value lies in [0, 1), as `Math.random()` promises. */
  ghost predicate UnitRolls(rnd: Rand) {
    forall k: nat :: 0.0 <= rnd(k) < 1.0
  }

  datatype Owner = PlayerShot | EnemyShot
  datatype PowerupKind = Heal | Rapid
  datatype BuffKind = NoBuff | RapidBuff

  /** The facing angle is not modelled. */
  datatype Player = Player(x: real, y: real, cooldown: real)

  datatype Enemy = Enemy(x: real, y: real, cooldown: real, spawn: real, variant: Variant, hp: int)

  datatype Bullet = Bullet(x: real, y: real, vx: real, vy: real, owner: Owner, born: real)

  datatype Powerup = Powerup(kind: PowerupKind, x: real, y: real, r: real, spawned: real, pulse: real)

  /** Only the remaining life of a particle is modelled. */
  datatype Particle = Particle(life: real)

  datatype Buff = Buff(kind: BuffKind, until: real)

  /** The persisted leaderboard: best score and best wave reached. */
  datatype Records = Records(highScore: int, bestWave: int)

  /** Input read once per step: movement keys, aim point and fire button. */
  datatype Command = Command(up: bool, down: bool, left: bool, right: bool,
                             aimX: real, aimY: real, fire: bool)

  /** Where the player starts and is put back after a non-fatal hit. */
  const StartX: real := Width * 0.5
  const StartY: real := Height * 0.8

  function NewPlayer(): Player {
    Player(StartX, StartY, 0.0)
  }

  /** `randomInRange(lo, hi)` given the drawn value `roll`. */
  function InRange(lo: real, hi: real, roll: real): (v: real)
    requires lo <= hi
    ensures 0.0 <= roll < 1.0 ==> lo <= v <= hi
  {
    ProductNonNegative(roll, hi - lo);
    ProductNonNegative(1.0 - roll, hi - lo);
    lo + roll * (hi - lo)
  }

  lemma ProductNonNegative(a: real, b: real)
    ensures a >= 0.0 && b >= 0.0 ==> a * b >= 0.0
  {
  }

  /** `createEnemy` drawing calls d, d+1, d+2, d+3 of `Math.random()`: x, y,
      variant, then the initial cooldown. */
  function NewEnemy(rnd: Rand, d: nat, wave: int, t: real): (e: Enemy)
    ensures e.hp == MaxHp(e.variant)
    ensures e.variant == ChooseVariant(wave, rnd(d + 2))
    ensures UnitRolls(rnd) ==> 40.0 <= e.x <= Width - 40.0 && 40.0 <= e.y <= Height * 0.3
  {
    var x := InRange(40.0, Width - 40.0, rnd(d));
    var y := InRange(40.0, Height * 0.3, rnd(d + 1));
    var v := ChooseVariant(wave, rnd(d + 2));
    Enemy(x, y, InRange(0.2, EnemyFireCooldown, rnd(d + 3)), t, v, MaxHp(v))
  }

  function NewBullet(x: real, y: real, dir: Vec, speed: real, owner: Owner, t: real): Bullet {
    Bullet(x, y, dir.x * speed, dir.y * speed, owner, t)
  }

  function NewPowerup(kind: PowerupKind, x: real, y: real, t: real): Powerup {
    Powerup(kind, x, y, PowerupRadius, t, 0.0)
  }

  /** The particles of one explosion; particle k draws calls d+4k .. d+4k+3
      (angle, speed, life, size) and its life is `0.6 + roll * 0.4`. */
  function Burst(rnd: Rand, d: nat): (ps: seq<Particle>)
    ensures |ps| == BurstSize
    ensures UnitRolls(rnd) ==> forall k :: 0 <= k < |ps| ==> 0.6 <= ps[k].life <= 1.0
  {
    seq(BurstSize, k requires 0 <= k < BurstSize => Particle(0.6 + rnd(d + 4 * k + 2) * 0.4))
  }

  /** Four border walls 24 units inside the arena, then four inner blocks. */
  function MapWalls(): (walls: seq<Rect>)
    ensures |walls| == 8
  {
    var margin := 24.0;
    [ Rect(margin, margin, Width - margin * 2.0, 12.0),
      Rect(margin, Height - margin - 12.0, Width - margin * 2.0, 12.0),
      Rect(margin, margin, 12.0, Height - margin * 2.0),
      Rect(Width - margin - 12.0, margin, 12.0, Height - margin * 2.0),
      Rect(200.0, 180.0, 120.0, 18.0),
      Rect(Width - 320.0, 180.0, 120.0, 18.0),
      Rect(320.0, 320.0, 80.0, 18.0),
      Rect(Width - 400.0, 320.0, 80.0, 18.0) ]
  }
}
