/** The game's mutable state and the per-frame `update`, written the way the
    source writes them: one object whose fields the phases of a frame change in
    place, with loops over the entity lists. Every method is proved to leave the
    state that the corresponding function of module Rules describes. */
module Game {
  import opened Geometry
  import opened Tuning
  import opened Director
  import opened Entities
  import opened Rules
  import opened Invariants

  class World {
    /** `Math.random()`: call number k returns `random(k)`. */
    const random: Rand
    /** `Math.hypot`. */
    const hypot: Hypot

    var isPaused: bool
    var isGameOver: bool
    var score: int
    var lives: int
    var wave: int
    var lastSpawnAt: real
    var nextSpawnDelay: real
    var player: Player
    var enemies: seq<Enemy>
    var bullets: seq<Bullet>
    var walls: seq<Rect>
    var particles: seq<Particle>
    var powerups: seq<Powerup>
    var buff: Buff
    /** The persisted best score and best wave. */
    var records: Records
    /** Number of `Math.random()` calls made so far. */
    var draws: nat

    /** The whole state as a value. */
    ghost function Snap(): Snapshot
      reads this
    {
      Snapshot(isPaused, isGameOver, score, lives, wave, lastSpawnAt, nextSpawnDelay,
               player, enemies, bullets, walls, particles, powerups, buff, records, draws)
    }

    /** The frame invariant, for a random stream whose values lie in [0, 1). */
    ghost predicate Valid()
      reads this
    {
      Consistent(Snap()) && UnitRolls(random)
    }

    /** The page's initial state followed by `resetGame()` at time `t`. */
    constructor (random: Rand, hypot: Hypot, records: Records, t: real)
      requires UnitRolls(random)
      ensures this.random == random && this.hypot == hypot
      ensures Snap() == Initial(records, t)
      ensures Valid()
    {
      this.random := random;
      this.hypot := hypot;
      isPaused := false;
      isGameOver := false;
      score := 0;
      lives := MaxLives;
      wave := 1;
      lastSpawnAt := 0.0;
      nextSpawnDelay := SpawnIntervalBase;
      player := NewPlayer();
      enemies := [];
      bullets := [];
      walls := [];
      particles := [];
      powerups := [];
      buff := Buff(NoBuff, 0.0);
      this.records := records;
      draws := 0;
      new;
      ResetGame(t);
    }

    /** `resetGame()`. */
    method ResetGame(t: real)
      modifies this
      ensures Snap() == Reset(old(Snap()), t)
      ensures Consistent(Snap())
    {
      isPaused := false;
      isGameOver := false;
      score := 0;
      lives := MaxLives;
      wave := 1;
      enemies := [];
      bullets := [];
      walls := MapWalls();
      player := NewPlayer();
      lastSpawnAt := t;
      nextSpawnDelay := SpawnIntervalBase;
      ResetConsistent(old(Snap()), t);
    }

    /** The pause button / P / Escape handler. */
    method TogglePause()
      modifies this
      ensures Snap() == Rules.TogglePause(old(Snap()))
      ensures old(Valid()) ==> Valid()
    {
      if isGameOver { return; }
      isPaused := !isPaused;
    }

    /** One call of `Math.random()`. */
    method Roll() returns (r: real)
      modifies this`draws
      ensures r == random(old(draws)) && draws == old(draws) + 1
    {
      r := random(draws);
      draws := draws + 1;
    }

    /** `spawnExplosion`: 18 particles, each drawing angle, speed, life and size. */
    method SpawnExplosion()
      modifies this
      ensures Snap() == Explode(old(Snap()), random)
    {
      var ps := particles;
      for k := 0 to BurstSize
        modifies this`draws
        invariant draws == old(draws) + 4 * k
        invariant ps == old(particles) + Burst(random, old(draws))[..k]
      {
        var angle := Roll();
        var speed := Roll();
        var life := Roll();
        var size := Roll();
        ps := ps + [Particle(0.6 + life * 0.4)];
        assert Burst(random, old(draws))[..k + 1] == Burst(random, old(draws))[..k] + [Particle(0.6 + life * 0.4)];
      }
      assert Burst(random, old(draws))[..BurstSize] == Burst(random, old(draws));
      particles := ps;
    }

    /** `damagePlayer()`. */
    method DamagePlayer()
      modifies this
      ensures Snap() == Damage(old(Snap()), random)
    {
      hide Explode, PlayerBullets;
      lives := lives - 1;
      if lives <= 0 {
        isGameOver := true;
        var hs := records.highScore;
        var bw := records.bestWave;
        if score > hs { records := records.(highScore := score); }
        if wave - 1 > bw { records := records.(bestWave := wave - 1); }
      } else {
        bullets := PlayerBullets(bullets);
        player := player.(x := StartX, y := StartY);
      }
      assert Snap() == Hurt(old(Snap()));
      SpawnExplosion();
    }

    // ---------- update, phase by phase ----------

    /** Aim, cool down, and fire when the button is held and the cooldown is 0. */
    method AimAndFire(dt: real, t: real, cmd: Command)
      modifies this
      ensures Snap() == Rules.AimAndFire(old(Snap()), dt, t, cmd, hypot)
    {
      var aimDx := cmd.aimX - player.x;
      var aimDy := cmd.aimY - player.y;
      player := player.(cooldown := Max(0.0, player.cooldown - dt));
      var fireCd := if buff.kind == RapidBuff then PlayerFireCooldown * RapidFactor else PlayerFireCooldown;
      if cmd.fire && player.cooldown == 0.0 {
        var dir := Normalize(aimDx, aimDy, hypot(aimDx, aimDy));
        var bx := player.x + dir.x * (PlayerRadius + 8.0);
        var bY := player.y + dir.y * (PlayerRadius + 8.0);
        bullets := bullets + [NewBullet(bx, bY, dir, PlayerBulletSpeed, PlayerShot, t)];
        player := player.(cooldown := fireCd);
      }
    }

    /** Player movement from the key axes. */
    method MovePlayer(dt: real, cmd: Command)
      modifies this
      ensures Snap() == Rules.MovePlayer(old(Snap()), dt, cmd, hypot)
    {
      var mx, my := 0, 0;
      if cmd.up { my := my - 1; }
      if cmd.down { my := my + 1; }
      if cmd.left { mx := mx - 1; }
      if cmd.right { mx := mx + 1; }
      if mx != 0 || my != 0 {
        var dir := Normalize(mx as real, my as real, hypot(mx as real, my as real));
        var step := Scale(dir, PlayerSpeed * dt);
        var nx := player.x + step.x;
        var ny := player.y + step.y;
        var pr := PlayerRadius;
        var tryX := Vec(nx, player.y);
        var tryY := Vec(player.x, ny);
        if !CollidesWithWalls(walls, tryX.x, tryX.y, pr) {
          player := player.(x := Clamp(tryX.x, pr, Width - pr));
        }
        if !CollidesWithWalls(walls, tryY.x, tryY.y, pr) {
          player := player.(y := Clamp(tryY.y, pr, Height - pr));
        }
      }
    }

    /** An enemy steers at the player, moves with wall sliding and cools down. */
    method SteerEnemy(e0: Enemy, dt: real) returns (e: Enemy)
      ensures e == Steer(e0, player, walls, dt, hypot)
    {
      e := e0;
      var dx := player.x - e.x;
      var dy := player.y - e.y;
      var dir := Normalize(dx, dy, hypot(dx, dy));
      var step := Scale(dir, Speed(e.variant) * dt);
      var ex := e.x + step.x;
      var ey := e.y + step.y;
      var er := EnemyRadius;
      var tryX := Vec(ex, e.y);
      var tryY := Vec(e.x, ey);
      if !CollidesWithWalls(walls, tryX.x, tryX.y, er) {
        e := e.(x := Clamp(tryX.x, er, Width - er));
      }
      if !CollidesWithWalls(walls, tryY.x, tryY.y, er) {
        e := e.(y := Clamp(tryY.y, er, Height - er));
      }
      assert step == Scale(Heading(e0, player, hypot), Speed(e0.variant) * dt);
      ghost var pos := SlideMove(walls, e0.x, e0.y, e0.x + step.x, e0.y + step.y, EnemyRadius);
      assert e == e0.(x := pos.x, y := pos.y);
      e := e.(cooldown := Max(0.0, e.cooldown - dt));
    }

    /** One enemy's turn: it steers, then fires when ready and in sight. */
    method EnemyAct(e0: Enemy, dt: real, t: real) returns (e: Enemy, shots: seq<Bullet>)
      ensures Turn(e, shots) == EnemyTurn(e0, player, walls, dt, t, hypot)
    {
      e := SteerEnemy(e0, dt);
      shots := [];
      if e.cooldown == 0.0 && HasLineOfSight(walls, e.x, e.y, player.x, player.y, hypot(player.x - e.x, player.y - e.y)) {
        var dir := Normalize(player.x - e0.x, player.y - e0.y, hypot(player.x - e0.x, player.y - e0.y));
        var bx := e.x + dir.x * (EnemyRadius + 6.0);
        var bY := e.y + dir.y * (EnemyRadius + 6.0);
        shots := [NewBullet(bx, bY, dir, ShotSpeed(e.variant), EnemyShot, t)];
        e := e.(cooldown := FireInterval(e.variant));
      }
    }

    /** Every enemy takes its turn in list order; their shots join the bullets.
        No turn reads another enemy or the bullets, so the two lists are updated
        in local copies and stored once the loop is done. */
    method MoveEnemies(dt: real, t: real)
      modifies this
      ensures Snap() == EnemiesPhase(old(Snap()), dt, t, hypot)
    {
      hide EnemyTurn;
      var es := enemies;
      var bs := bullets;
      var i := 0;
      while i < |es|
        invariant unchanged(this)
        invariant 0 <= i <= |es| == |enemies|
        invariant Volley(es, bs) == EnemiesAct(enemies, bullets, player, walls, dt, t, hypot, i)
      {
        var e, shots := EnemyAct(es[i], dt, t);
        es := es[i := e];
        bs := bs + shots;
        i := i + 1;
      }
      enemies := es;
      bullets := bs;
    }

    /** `chooseVariant()`. */
    method PickVariant() returns (v: Variant)
      modifies this`draws
      ensures v == Director.ChooseVariant(wave, random(old(draws))) && draws == old(draws) + 1
    {
      var w := wave;
      var pScout := Clamp(0.5 + (w as real) * 0.01, 0.5, 0.7);
      var pHeavy := Clamp(0.2 + (w as real) * 0.01, 0.2, 0.35);
      var r := Roll();
      if r < pScout { return Scout; }
      if r < pScout + pHeavy { return Heavy; }
      return Sniper;
    }

    /** `createEnemy()`. */
    method CreateEnemy(t: real) returns (e: Enemy)
      modifies this`draws
      ensures e == NewEnemy(random, old(draws), wave, t) && draws == old(draws) + 4
    {
      var rx := Roll();
      var x := InRange(40.0, Width - 40.0, rx);
      var ry := Roll();
      var y := InRange(40.0, Height * 0.3, ry);
      var v := PickVariant();
      var rc := Roll();
      e := Enemy(x, y, InRange(0.2, EnemyFireCooldown, rc), t, v, MaxHp(v));
    }

    /** `spawnWave()`. */
    method SpawnWave(t: real)
      modifies this
      ensures Snap() == Rules.SpawnWave(old(Snap()), t, random)
    {
      hide NewEnemy, WaveEnemies, WavePowerup;
      var count := WaveSize(wave);
      var es := enemies;
      var i := 0;
      while i < count
        modifies this`draws
        invariant 0 <= i <= WaveCount(wave)
        invariant draws == old(draws) + 4 * i
        invariant es == old(enemies) + WaveEnemies(random, old(draws), wave, t, i)
      {
        var e := CreateEnemy(t);
        es := es + [e];
        WaveEnemiesSnoc(random, old(draws), wave, t, i);
        i := i + 1;
      }
      enemies := es;
      wave := wave + 1;
      var pu := DropPowerup(t);
      powerups := powerups + [pu];
    }

    /** The powerup drawn after a wave: x, y, then heal or rapid with even odds. */
    method DropPowerup(t: real) returns (pu: Powerup)
      modifies this`draws
      ensures pu == WavePowerup(random, old(draws), t) && draws == old(draws) + 3
    {
      var rx := Roll();
      var px := InRange(60.0, Width - 60.0, rx);
      var ry := Roll();
      var py := InRange(80.0, Height - 80.0, ry);
      var rk := Roll();
      var kind := if rk < 0.5 then Heal else Rapid;
      pu := NewPowerup(kind, px, py, t);
    }

    /** The wave timer. */
    method SpawnTimer(t: real)
      modifies this
      ensures Snap() == SpawnPhase(old(Snap()), t, random)
    {
      if t - lastSpawnAt >= nextSpawnDelay {
        SpawnWave(t);
        lastSpawnAt := t;
        nextSpawnDelay := Max(2.0, SpawnIntervalBase - (wave as real) * 0.35);
      }
    }

    /** Powerup animation phases. */
    method PulsePowerups(dt: real)
      modifies this
      ensures Snap() == old(Snap()).(powerups := Pulse(old(powerups), dt))
    {
      for k := 0 to |powerups|
        invariant |powerups| == |old(powerups)|
        invariant forall j :: 0 <= j < k ==> powerups[j] == Pulse(old(powerups), dt)[j]
        invariant forall j :: k <= j < |powerups| ==> powerups[j] == old(powerups)[j]
        invariant Snap() == old(Snap()).(powerups := powerups)
      {
        powerups := powerups[k := powerups[k].(pulse := powerups[k].pulse + dt * 6.0)];
      }
    }

    /** A player bullet at (x, y) against the enemies in list order: the first one
        it overlaps loses a hit point and is removed at 0. */
    method HitEnemies(x: real, y: real) returns (killed: bool)
      modifies this
      ensures var i := FirstHit(old(enemies), x, y);
              killed == (i < |old(enemies)|) &&
              Snap() == if killed then StrikeEnemy(old(Snap()), i, random) else old(Snap())
    {
      hide Explode;
      var i := 0;
      while i < |enemies|
        invariant 0 <= i <= |enemies|
        invariant Snap() == old(Snap())
        invariant forall j :: 0 <= j < i ==> !HitsEnemy(enemies[j], x, y)
      {
        var e := enemies[i];
        if CirclesOverlap(x, y, BulletRadius, e.x, e.y, EnemyRadius) {
          ghost var s0 := Snap();
          e := e.(hp := (if e.hp == 0 then 1 else e.hp) - 1);
          enemies := enemies[i := e];
          if e.hp <= 0 {
            enemies := enemies[..i] + enemies[i + 1..];
            assert enemies == s0.enemies[..i] + s0.enemies[i + 1..];
            score := score + ScoreValue(e.variant);
            SpawnExplosion();
          }
          SpawnExplosion();
          return true;
        }
        i := i + 1;
      }
      return false;
    }

    /** One bullet of the bullet loop; `keep` says whether it survives. */
    method BulletTurn(b: Bullet, dt: real, t: real) returns (keep: bool)
      modifies this
      ensures var out := ResolveBullet(old(Snap()), b, dt, t, random);
              Snap() == out.state && keep == out.keep
    {
      var m := Advance(b, dt);
      if CollidesWithWalls(walls, m.x, m.y, BulletRadius) { return false; }
      if m.x < 0.0 || m.y < 0.0 || m.x > Width || m.y > Height { return false; }
      if t - m.born > BulletLifetime { return false; }
      if m.owner == EnemyShot && CirclesOverlap(m.x, m.y, BulletRadius, player.x, player.y, PlayerRadius) {
        DamagePlayer();
        return false;
      }
      if m.owner == PlayerShot {
        var killed := HitEnemies(m.x, m.y);
        if killed { return false; }
      }
      return true;
    }

    /** The bullet loop: it walks the list as it was when the loop began and
        finally replaces the bullet list with the survivors. */
    method MoveBullets(dt: real, t: real)
      modifies this
      ensures Snap() == BulletsPhase(old(Snap()), dt, t, random)
    {
      hide ResolveBullet;
      var bs := bullets;
      var alive: seq<Bullet> := [];
      var i := 0;
      while i < |bs|
        invariant 0 <= i <= |bs|
        invariant SweepBullets(old(Snap()), bs, dt, t, random, i) == Sweep(Snap(), alive)
      {
        var b := bs[i];
        var keep := BulletTurn(b, dt, t);
        if keep {
          alive := alive + [Advance(b, dt)];
        }
        i := i + 1;
      }
      bullets := alive;
    }

    /** Particles lose `dt` of life; the dead ones are dropped. */
    method AgeParticles(dt: real)
      modifies this
      ensures Snap() == old(Snap()).(particles := Rules.AgeParticles(old(particles), dt, |old(particles)|))
    {
      var alive: seq<Particle> := [];
      for k := 0 to |particles|
        invariant alive == Rules.AgeParticles(particles, dt, k)
      {
        var q := Particle(particles[k].life - dt);
        if q.life > 0.0 {
          alive := alive + [q];
        }
      }
      particles := alive;
    }

    /** One powerup of the pickup loop; `keep` says whether it stays. */
    method PowerupTurn(pu: Powerup, t: real) returns (keep: bool)
      modifies this
      ensures var out := CollectPowerup(old(Snap()), pu, t, random);
              Snap() == out.state && keep == out.keep
    {
      var picked := CirclesOverlap(pu.x, pu.y, pu.r, player.x, player.y, PlayerRadius);
      if picked {
        if pu.kind == Heal {
          lives := if MaxLives <= lives + 1 then MaxLives else lives + 1;
        } else if pu.kind == Rapid {
          buff := Buff(RapidBuff, t + RapidDuration);
        }
        SpawnExplosion();
        return false;
      }
      if t - pu.spawned > PowerupLifetime { return false; }
      return true;
    }

    /** Powerup pickup and lifetime. */
    method CollectPowerups(t: real)
      modifies this
      ensures Snap() == PowerupsPhase(old(Snap()), t, random)
    {
      hide CollectPowerup;
      var pus := powerups;
      var alive: seq<Powerup> := [];
      var i := 0;
      while i < |pus|
        invariant 0 <= i <= |pus|
        invariant SweepPowerups(old(Snap()), pus, t, random, i) == Harvest(Snap(), alive)
      {
        var pu := pus[i];
        var keep := PowerupTurn(pu, t);
        if keep {
          alive := alive + [pu];
        }
        i := i + 1;
      }
      powerups := alive;
    }

    /** Buff expiry. */
    method ExpireBuff(t: real)
      modifies this
      ensures Snap() == Rules.ExpireBuff(old(Snap()), t)
    {
      if buff.kind == RapidBuff && t > buff.until {
        buff := Buff(NoBuff, 0.0);
      }
    }

    /** `update(dt)` at time `t` with input `cmd`. The caller caps `dt` at 0.033. */
    method Update(dt: real, t: real, cmd: Command)
      requires 0.0 <= dt <= 0.033
      requires Valid()
      modifies this
      ensures Snap() == Step(old(Snap()), dt, t, cmd, random, hypot)
      ensures Valid()
    {
      if isPaused || isGameOver { return; }
      AimAndFire(dt, t, cmd);
      MovePlayer(dt, cmd);
      MoveEnemies(dt, t);
      SpawnTimer(t);
      PulsePowerups(dt);
      MoveBullets(dt, t);
      AgeParticles(dt);
      CollectPowerups(t);
      ExpireBuff(t);
      StepPreservesConsistent(old(Snap()), dt, t, cmd, random, hypot);
    }
  }
}
