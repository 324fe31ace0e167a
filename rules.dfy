/** One frame of the simulation as pure transitions on a `Snapshot` of the game
    state. Each function describes one phase of `update`, in the order `update`
    runs them; `Step` composes them. The `World` class in module Game performs
    the same phases in place and is proved to agree with these functions. */
module Rules {
  import opened Geometry
  import opened Tuning
  import opened Director
  import opened Entities

  /** Everything the simulation reads or writes. `records` stands for the
      persisted leaderboard and `draws` counts the `Math.random()` calls made. */
  datatype Snapshot = Snapshot(
    paused: bool, gameOver: bool, score: int, lives: int, wave: int,
    lastSpawnAt: real, nextSpawnDelay: real,
    player: Player, enemies: seq<Enemy>, bullets: seq<Bullet>, walls: seq<Rect>,
    particles: seq<Particle>, powerups: seq<Powerup>, buff: Buff,
    records: Records, draws: nat)

  // ---------- session ----------

  /** `resetGame`: a fresh session at time `t`. Particles, powerups, the buff,
      the leaderboard and the random stream are left as they are. */
  function Reset(s: Snapshot, t: real): (s': Snapshot)
    ensures s'.lives == MaxLives && s'.wave == 1 && s'.score == 0
    ensures !s'.paused && !s'.gameOver
    ensures s'.enemies == [] && s'.bullets == [] && s'.walls == MapWalls() && |s'.walls| == 8
    ensures s'.player == NewPlayer() && s'.player.x == StartX && s'.player.y == StartY && s'.player.cooldown == 0.0
    ensures s'.lastSpawnAt == t && s'.nextSpawnDelay == SpawnIntervalBase
    ensures s'.particles == s.particles && s'.powerups == s.powerups && s'.buff == s.buff
    ensures s'.records == s.records && s'.draws == s.draws
  {
    s.(paused := false, gameOver := false, score := 0, lives := MaxLives, wave := 1,
       enemies := [], bullets := [], walls := MapWalls(), player := NewPlayer(),
       lastSpawnAt := t, nextSpawnDelay := SpawnIntervalBase)
  }

  /** The state the page starts with, then `resetGame` at time `t`. */
  function Initial(records: Records, t: real): Snapshot {
    Reset(Snapshot(false, false, 0, MaxLives, 1, 0.0, SpawnIntervalBase, NewPlayer(),
                   [], [], [], [], [], Buff(NoBuff, 0.0), records, 0), t)
  }

  /** The pause button and the P / Escape keys: ignored once the game is over. */
  function TogglePause(s: Snapshot): (s': Snapshot)
    ensures s.gameOver ==> s' == s
    ensures !s.gameOver ==> s'.paused != s.paused && s' == s.(paused := s'.paused)
  {
    if s.gameOver then s else s.(paused := !s.paused)
  }

  // ---------- player aim and fire ----------

  /** A cooldown decreased by `dt` and floored at 0. */
  function Cool(cd: real, dt: real): (c: real)
    ensures c >= 0.0
    ensures c == 0.0 <==> cd <= dt
    ensures cd > dt ==> c == cd - dt
  {
    Max(0.0, cd - dt)
  }

  /** The player's fire interval: shortened to 40% while rapid is active. */
  function PlayerFireCd(buff: Buff): (cd: real)
    ensures cd > 0.0
    ensures cd < PlayerFireCooldown <==> buff.kind == RapidBuff
  {
    if buff.kind == RapidBuff then PlayerFireCooldown * RapidFactor else PlayerFireCooldown
  }

  /** The player fires when the button is held and the cooled-down cooldown is 0. */
  predicate PlayerFires(s: Snapshot, dt: real, cmd: Command) {
    cmd.fire && Cool(s.player.cooldown, dt) == 0.0
  }

  /** Aim and shoot: the cooldown runs down and, when the player fires, one player
      bullet is appended at the barrel's tip and the cooldown restarts. */
  function AimAndFire(s: Snapshot, dt: real, t: real, cmd: Command, hypot: Hypot): (s': Snapshot)
    ensures s' == s.(player := s'.player, bullets := s'.bullets)
    ensures s'.player.x == s.player.x && s'.player.y == s.player.y
    ensures s'.player.cooldown >= 0.0
    ensures PlayerFires(s, dt, cmd) ==>
              s'.player.cooldown == PlayerFireCd(s.buff) &&
              |s'.bullets| == |s.bullets| + 1 && s'.bullets[..|s.bullets|] == s.bullets &&
              s'.bullets[|s.bullets|].owner == PlayerShot && s'.bullets[|s.bullets|].born == t
    ensures !PlayerFires(s, dt, cmd) ==>
              s'.bullets == s.bullets && s'.player.cooldown == Cool(s.player.cooldown, dt)
  {
    var p := s.player;
    var aimDx := cmd.aimX - p.x;
    var aimDy := cmd.aimY - p.y;
    var cd := Cool(p.cooldown, dt);
    if cmd.fire && cd == 0.0 then
      var dir := Normalize(aimDx, aimDy, hypot(aimDx, aimDy));
      var muzzle := PlayerRadius + 8.0;
      var b := NewBullet(p.x + dir.x * muzzle, p.y + dir.y * muzzle, dir, PlayerBulletSpeed, PlayerShot, t);
      s.(player := p.(cooldown := PlayerFireCd(s.buff)), bullets := s.bullets + [b])
    else
      s.(player := p.(cooldown := cd))
  }

  // ---------- movement ----------

  /** Axis-separated, wall-checked displacement of a circle of radius `r` from
      (x, y) towards the candidate (nx, ny). The x move is tested at (nx, y), the y
      move at (x, ny); a blocked axis keeps its coordinate, an accepted one is
      clamped into the arena. */
  function SlideMove(walls: seq<Rect>, x: real, y: real, nx: real, ny: real, r: real): Vec {
    var x' := if CollidesWithWalls(walls, nx, y, r) then x else Clamp(nx, r, Width - r);
    var y' := if CollidesWithWalls(walls, x, ny, r) then y else Clamp(ny, r, Height - r);
    Vec(x', y')
  }

  /** A circle that starts inside the arena stays inside it, whatever the walls. */
  lemma SlideMoveStaysInArena(walls: seq<Rect>, x: real, y: real, nx: real, ny: real, r: real)
    requires InArena(x, y, r)
    ensures var pos := SlideMove(walls, x, y, nx, ny, r); InArena(pos.x, pos.y, r)
  {
  }

  /** Each axis is decided on its own probe: the x move is tested at (nx, y) and
      the y move at (x, ny). A blocked axis keeps its coordinate; a free one
      takes the candidate when it lies inside the arena and the nearest arena
      bound otherwise. */
  lemma SlideMoveAxes(walls: seq<Rect>, x: real, y: real, nx: real, ny: real, r: real)
    requires r <= Width - r && r <= Height - r
    ensures var pos := SlideMove(walls, x, y, nx, ny, r);
            (CollidesWithWalls(walls, nx, y, r) ==> pos.x == x) &&
            (!CollidesWithWalls(walls, nx, y, r) ==>
               r <= pos.x <= Width - r && (r <= nx <= Width - r ==> pos.x == nx) &&
               (nx < r ==> pos.x == r) && (nx > Width - r ==> pos.x == Width - r))
    ensures var pos := SlideMove(walls, x, y, nx, ny, r);
            (CollidesWithWalls(walls, x, ny, r) ==> pos.y == y) &&
            (!CollidesWithWalls(walls, x, ny, r) ==>
               r <= pos.y <= Height - r && (r <= ny <= Height - r ==> pos.y == ny) &&
               (ny < r ==> pos.y == r) && (ny > Height - r ==> pos.y == Height - r))
  {
  }

  /** The key axes: up and left count -1, down and right +1. */
  function AxisX(cmd: Command): int { (if cmd.left then -1 else 0) + (if cmd.right then 1 else 0) }

  function AxisY(cmd: Command): int { (if cmd.up then -1 else 0) + (if cmd.down then 1 else 0) }

  /** Player movement at `PlayerSpeed` along the normalised key direction. */
  function MovePlayer(s: Snapshot, dt: real, cmd: Command, hypot: Hypot): Snapshot {
    var mx := AxisX(cmd);
    var my := AxisY(cmd);
    if mx == 0 && my == 0 then s
    else
      var dir := Normalize(mx as real, my as real, hypot(mx as real, my as real));
      var p := s.player;
      var step := Scale(dir, PlayerSpeed * dt);
      var pos := SlideMove(s.walls, p.x, p.y, p.x + step.x, p.y + step.y, PlayerRadius);
      s.(player := p.(x := pos.x, y := pos.y))
  }

  /** Movement changes only the player's position; with no key held nothing
      changes; a player inside the arena stays inside it. */
  lemma MovePlayerFacts(s: Snapshot, dt: real, cmd: Command, hypot: Hypot)
    ensures var s' := MovePlayer(s, dt, cmd, hypot);
            s' == s.(player := s'.player) && s'.player.cooldown == s.player.cooldown
    ensures AxisX(cmd) == 0 && AxisY(cmd) == 0 ==> MovePlayer(s, dt, cmd, hypot) == s
    ensures var s' := MovePlayer(s, dt, cmd, hypot);
            InArena(s.player.x, s.player.y, PlayerRadius) ==> InArena(s'.player.x, s'.player.y, PlayerRadius)
  {
    if InArena(s.player.x, s.player.y, PlayerRadius) && (AxisX(cmd) != 0 || AxisY(cmd) != 0) {
      var dir := Normalize(AxisX(cmd) as real, AxisY(cmd) as real, hypot(AxisX(cmd) as real, AxisY(cmd) as real));
      var step := Scale(dir, PlayerSpeed * dt);
      SlideMoveStaysInArena(s.walls, s.player.x, s.player.y, s.player.x + step.x, s.player.y + step.y, PlayerRadius);
    }
  }

  /** A circle of radius `r` centred at (x, y) lies within the arena's bounds. */
  predicate InArena(x: real, y: real, r: real) {
    r <= x <= Width - r && r <= y <= Height - r
  }

  // ---------- enemies ----------

  /** One enemy's move and possible shot. */
  datatype Turn = Turn(enemy: Enemy, shots: seq<Bullet>)

  /** The unit vector from an enemy towards the target. */
  function Heading(e: Enemy, target: Player, hypot: Hypot): Vec {
    var dx := target.x - e.x;
    var dy := target.y - e.y;
    Normalize(dx, dy, hypot(dx, dy))
  }

  /** An enemy steers straight at the player, moves like the player does (at its
      variant's speed) and its cooldown runs down. */
  function Steer(e: Enemy, target: Player, walls: seq<Rect>, dt: real, hypot: Hypot): Enemy {
    var step := Scale(Heading(e, target, hypot), Speed(e.variant) * dt);
    var pos := SlideMove(walls, e.x, e.y, e.x + step.x, e.y + step.y, EnemyRadius);
    e.(x := pos.x, y := pos.y, cooldown := Cool(e.cooldown, dt))
  }

  /** An enemy's turn: it steers, then fires one bullet along its heading when
      its cooldown has run out and it sees the player. */
  function EnemyTurn(e: Enemy, target: Player, walls: seq<Rect>, dt: real, t: real, hypot: Hypot): Turn {
    var moved := Steer(e, target, walls, dt, hypot);
    if moved.cooldown == 0.0 && Sees(moved, target, walls, hypot) then
      var dir := Heading(e, target, hypot);
      var muzzle := EnemyRadius + 6.0;
      var b := NewBullet(moved.x + dir.x * muzzle, moved.y + dir.y * muzzle, dir, ShotSpeed(e.variant), EnemyShot, t);
      Turn(moved.(cooldown := FireInterval(e.variant)), [b])
    else
      Turn(moved, [])
  }

  /** What a turn guarantees: hit points, variant and spawn time are kept; the
      cooldown stays >= 0; at most one shot, fired only when the cooled-down
      cooldown reached 0 and then restarting it at the variant's interval; an
      enemy inside the arena stays inside it. */
  lemma EnemyTurnFacts(e: Enemy, target: Player, walls: seq<Rect>, dt: real, t: real, hypot: Hypot)
    ensures var turn := EnemyTurn(e, target, walls, dt, t, hypot);
            turn.enemy.hp == e.hp && turn.enemy.variant == e.variant && turn.enemy.spawn == e.spawn &&
            turn.enemy.cooldown >= 0.0 && |turn.shots| <= 1
    ensures var turn := EnemyTurn(e, target, walls, dt, t, hypot);
            |turn.shots| == 1 <==>
              Cool(e.cooldown, dt) == 0.0 && Sees(Steer(e, target, walls, dt, hypot), target, walls, hypot)
    ensures var turn := EnemyTurn(e, target, walls, dt, t, hypot);
            |turn.shots| == 1 ==>
              Cool(e.cooldown, dt) == 0.0 && turn.enemy.cooldown == FireInterval(e.variant) &&
              turn.shots[0].owner == EnemyShot && turn.shots[0].born == t
    ensures var turn := EnemyTurn(e, target, walls, dt, t, hypot);
            Cool(e.cooldown, dt) > 0.0 ==> turn.shots == [] && turn.enemy.cooldown == Cool(e.cooldown, dt)
    ensures var turn := EnemyTurn(e, target, walls, dt, t, hypot);
            InArena(e.x, e.y, EnemyRadius) ==> InArena(turn.enemy.x, turn.enemy.y, EnemyRadius)
  {
    if InArena(e.x, e.y, EnemyRadius) {
      var step := Scale(Heading(e, target, hypot), Speed(e.variant) * dt);
      SlideMoveStaysInArena(walls, e.x, e.y, e.x + step.x, e.y + step.y, EnemyRadius);
    }
  }

  /** The enemy has line of sight to the target. */
  predicate Sees(e: Enemy, target: Player, walls: seq<Rect>, hypot: Hypot) {
    HasLineOfSight(walls, e.x, e.y, target.x, target.y, hypot(target.x - e.x, target.y - e.y))
  }

  /** The lists the enemy loop changes: the enemies and the bullets. */
  datatype Volley = Volley(enemies: seq<Enemy>, bullets: seq<Bullet>)

  /** The enemy loop after its first `n` iterations: enemies 0 .. n-1 have taken
      their turn in place and their shots were appended to `bs` in that order. */
  function EnemiesAct(es: seq<Enemy>, bs: seq<Bullet>, target: Player, walls: seq<Rect>,
                      dt: real, t: real, hypot: Hypot, n: nat): (v: Volley)
    requires n <= |es|
    ensures |v.enemies| == |es|
    ensures forall k :: n <= k < |es| ==> v.enemies[k] == es[k]
  {
    if n == 0 then Volley(es, bs)
    else
      var v := EnemiesAct(es, bs, target, walls, dt, t, hypot, n - 1);
      var turn := EnemyTurn(es[n - 1], target, walls, dt, t, hypot);
      Volley(v.enemies[n - 1 := turn.enemy], v.bullets + turn.shots)
  }

  /** The enemy phase of a frame: every enemy takes its turn. */
  function EnemiesPhase(s: Snapshot, dt: real, t: real, hypot: Hypot): Snapshot {
    var v := EnemiesAct(s.enemies, s.bullets, s.player, s.walls, dt, t, hypot, |s.enemies|);
    s.(enemies := v.enemies, bullets := v.bullets)
  }

  /** The loop, read per enemy: enemy k (k < n) is the result of its own turn,
      the old bullets stay first, at most one bullet per enemy is added, and every
      added bullet is an enemy shot fired at time t. */
  lemma {:induction false} EnemiesActSpec(es: seq<Enemy>, bs: seq<Bullet>, target: Player, walls: seq<Rect>,
                                          dt: real, t: real, hypot: Hypot, n: nat)
    requires n <= |es|
    ensures var v := EnemiesAct(es, bs, target, walls, dt, t, hypot, n);
            (forall k :: 0 <= k < n ==> v.enemies[k] == EnemyTurn(es[k], target, walls, dt, t, hypot).enemy) &&
            |bs| <= |v.bullets| <= |bs| + n && v.bullets[..|bs|] == bs &&
            (forall k :: |bs| <= k < |v.bullets| ==> v.bullets[k].owner == EnemyShot && v.bullets[k].born == t)
  {
    if n > 0 {
      EnemiesActSpec(es, bs, target, walls, dt, t, hypot, n - 1);
      EnemyTurnFacts(es[n - 1], target, walls, dt, t, hypot);
      var v := EnemiesAct(es, bs, target, walls, dt, t, hypot, n - 1);
      var turn := EnemyTurn(es[n - 1], target, walls, dt, t, hypot);
      assert (v.bullets + turn.shots)[..|bs|] == v.bullets[..|bs|];
    }
  }

  // ---------- waves ----------

  /** The loop `for (i = 0; i < count; i++)` runs max(0, count) times. */
  function WaveCount(wave: int): nat {
    if WaveSize(wave) < 0 then 0 else WaveSize(wave)
  }

  /** The `n` enemies of a wave, the k-th drawing random calls d+4k .. d+4k+3. */
  function WaveEnemies(rnd: Rand, d: nat, wave: int, t: real, n: nat): (es: seq<Enemy>)
    ensures |es| == n
    ensures forall k :: 0 <= k < n ==> es[k].hp >= 1 && es[k].spawn == t
  {
    seq(n, k requires 0 <= k < n => NewEnemy(rnd, d + 4 * k, wave, t))
  }

  /** Creating one more enemy extends the wave by that enemy. */
  lemma WaveEnemiesSnoc(rnd: Rand, d: nat, wave: int, t: real, n: nat)
    ensures WaveEnemies(rnd, d, wave, t, n + 1) == WaveEnemies(rnd, d, wave, t, n) + [NewEnemy(rnd, d + 4 * n, wave, t)]
  {
  }

  /** The powerup that follows a wave, drawing x, y, then its kind. */
  function WavePowerup(rnd: Rand, d: nat, t: real): (pu: Powerup)
    ensures pu.kind == Heal <==> rnd(d + 2) < 0.5
    ensures pu.r == PowerupRadius && pu.spawned == t && pu.pulse == 0.0
    ensures UnitRolls(rnd) ==> 60.0 <= pu.x <= Width - 60.0 && 80.0 <= pu.y <= Height - 80.0
  {
    var x := InRange(60.0, Width - 60.0, rnd(d));
    var y := InRange(80.0, Height - 80.0, rnd(d + 1));
    NewPowerup(if rnd(d + 2) < 0.5 then Heal else Rapid, x, y, t)
  }

  /** `spawnWave`: the wave's enemies, then wave + 1, then one powerup. */
  function SpawnWave(s: Snapshot, t: real, rnd: Rand): Snapshot {
    var n := WaveCount(s.wave);
    var d := s.draws + 4 * n;
    s.(enemies := s.enemies + WaveEnemies(rnd, s.draws, s.wave, t, n),
       wave := s.wave + 1,
       powerups := s.powerups + [WavePowerup(rnd, d, t)],
       draws := d + 3)
  }

  /** The wave timer fires once `SpawnDelay` seconds have passed since the last wave. */
  predicate WaveDue(s: Snapshot, t: real) {
    t - s.lastSpawnAt >= s.nextSpawnDelay
  }

  function SpawnPhase(s: Snapshot, t: real, rnd: Rand): Snapshot {
    if WaveDue(s, t) then
      var s1 := SpawnWave(s, t, rnd);
      s1.(lastSpawnAt := t, nextSpawnDelay := SpawnDelay(s1.wave))
    else s
  }

  /** Powerup animation phase advances by 6 per second. */
  function Pulse(pus: seq<Powerup>, dt: real): (r: seq<Powerup>)
    ensures |r| == |pus|
    ensures forall k :: 0 <= k < |pus| ==> r[k] == pus[k].(pulse := r[k].pulse)
    ensures forall k :: 0 <= k < |pus| ==> r[k].pulse == pus[k].pulse + 6.0 * dt
  {
    seq(|pus|, k requires 0 <= k < |pus| => pus[k].(pulse := pus[k].pulse + dt * 6.0))
  }

  // ---------- explosions and damage ----------

  /** `spawnExplosion`: 18 particles appended, 4 random draws each. */
  function Explode(s: Snapshot, rnd: Rand): (s': Snapshot)
    ensures |s'.particles| == |s.particles| + BurstSize
    ensures s'.particles[..|s.particles|] == s.particles && s'.draws == s.draws + 4 * BurstSize
    ensures UnitRolls(rnd) ==>
              forall k :: |s.particles| <= k < |s'.particles| ==> 0.6 <= s'.particles[k].life <= 1.0
    ensures s' == s.(particles := s'.particles, draws := s'.draws)
  {
    s.(particles := s.particles + Burst(rnd, s.draws), draws := s.draws + 4 * BurstSize)
  }

  /** `bullets.filter(b => b.owner !== "enemy")`. */
  function PlayerBullets(bs: seq<Bullet>): (r: seq<Bullet>)
    ensures forall b :: b in r <==> b in bs && b.owner != EnemyShot
    ensures forall b :: multiset(r)[b] == if b.owner != EnemyShot then multiset(bs)[b] else 0
    ensures |r| <= |bs|
  {
    if bs == [] then []
    else
      var rest := PlayerBullets(bs[1..]);
      assert multiset(bs) == multiset([bs[0]]) + multiset(bs[1..]) by { assert bs == [bs[0]] + bs[1..]; }
      if bs[0].owner != EnemyShot then [bs[0]] + rest else rest
  }

  /** The leaderboard after a game ends with `score` at `wave`: each record is
      raised only when beaten; the best wave is the last one completed. */
  function SaveRecords(r: Records, score: int, wave: int): Records {
    Records(if score > r.highScore then score else r.highScore,
            if wave - 1 > r.bestWave then wave - 1 else r.bestWave)
  }

  /** `damagePlayer` up to its explosion: one life lost, then either game over
      with the records saved, or the enemy bullets cleared and the player put back. */
  function Hurt(s: Snapshot): Snapshot {
    var lives := s.lives - 1;
    if lives <= 0 then
      s.(lives := lives, gameOver := true, records := SaveRecords(s.records, s.score, s.wave))
    else
      s.(lives := lives, bullets := PlayerBullets(s.bullets), player := s.player.(x := StartX, y := StartY))
  }

  /** `damagePlayer`. */
  function Damage(s: Snapshot, rnd: Rand): Snapshot {
    Explode(Hurt(s), rnd)
  }

  // ---------- bullets ----------

  /** A bullet moves by its velocity times dt. */
  function Advance(b: Bullet, dt: real): Bullet {
    b.(x := b.x + b.vx * dt, y := b.y + b.vy * dt)
  }

  predicate OutOfBounds(b: Bullet) {
    b.x < 0.0 || b.y < 0.0 || b.x > Width || b.y > Height
  }

  predicate Expired(b: Bullet, t: real) {
    t - b.born > BulletLifetime
  }

  predicate HitsEnemy(e: Enemy, x: real, y: real) {
    CirclesOverlap(x, y, BulletRadius, e.x, e.y, EnemyRadius)
  }

  /** Index of the first enemy a bullet at (x, y) overlaps, or |es| for none. */
  function FirstHit(es: seq<Enemy>, x: real, y: real): (i: nat)
    ensures i <= |es|
    ensures i < |es| ==> HitsEnemy(es[i], x, y)
    ensures forall j :: 0 <= j < i ==> !HitsEnemy(es[j], x, y)
  {
    if es == [] then 0
    else if HitsEnemy(es[0], x, y) then 0
    else 1 + FirstHit(es[1..], x, y)
  }

  /** A player bullet strikes enemy `i`: one hit point lost (a missing count of
      0 counts as 1); at 0 the enemy is removed, its score is added and an
      explosion is spawned; then an explosion is spawned in either case. */
  function StrikeEnemy(s: Snapshot, i: nat, rnd: Rand): Snapshot
    requires i < |s.enemies|
  {
    var e := s.enemies[i];
    var hp := (if e.hp == 0 then 1 else e.hp) - 1;
    var struck :=
      if hp <= 0 then
        Explode(s.(enemies := s.enemies[..i] + s.enemies[i + 1..], score := s.score + ScoreValue(e.variant)), rnd)
      else
        s.(enemies := s.enemies[i := e.(hp := hp)]);
    Explode(struck, rnd)
  }

  /** The result of resolving one bullet (or powerup): the new state, and whether
      the item is kept. */
  datatype Outcome = Outcome(state: Snapshot, keep: bool)

  /** One bullet's turn: it moves, then the first of wall, bounds, lifetime,
      target that applies removes it. */
  function ResolveBullet(s: Snapshot, b: Bullet, dt: real, t: real, rnd: Rand): Outcome {
    var m := Advance(b, dt);
    if CollidesWithWalls(s.walls, m.x, m.y, BulletRadius) then Outcome(s, false)
    else if OutOfBounds(m) then Outcome(s, false)
    else if Expired(m, t) then Outcome(s, false)
    else if m.owner == EnemyShot && CirclesOverlap(m.x, m.y, BulletRadius, s.player.x, s.player.y, PlayerRadius) then
      Outcome(Damage(s, rnd), false)
    else if m.owner == PlayerShot && FirstHit(s.enemies, m.x, m.y) < |s.enemies| then
      Outcome(StrikeEnemy(s, FirstHit(s.enemies, m.x, m.y), rnd), false)
    else Outcome(s, true)
  }

  /** The bullet loop over `bs` (the list as it was when the loop began) after
      its first `n` iterations: the state threaded through those bullets and the
      moved survivors in order. */
  datatype Sweep = Sweep(state: Snapshot, alive: seq<Bullet>)

  function SweepBullets(s: Snapshot, bs: seq<Bullet>, dt: real, t: real, rnd: Rand, n: nat): Sweep
    requires n <= |bs|
  {
    if n == 0 then Sweep(s, [])
    else
      var prev := SweepBullets(s, bs, dt, t, rnd, n - 1);
      var out := ResolveBullet(prev.state, bs[n - 1], dt, t, rnd);
      Sweep(out.state, if out.keep then prev.alive + [Advance(bs[n - 1], dt)] else prev.alive)
  }

  /** The survivors replace whatever the bullet list became during the loop. */
  function BulletsPhase(s: Snapshot, dt: real, t: real, rnd: Rand): Snapshot {
    var w := SweepBullets(s, s.bullets, dt, t, rnd, |s.bullets|);
    w.state.(bullets := w.alive)
  }

  // ---------- particles ----------

  /** The particle loop after its first `n` iterations: each particle loses
      `dt` of life and those left with life > 0 are kept in order. */
  function AgeParticles(ps: seq<Particle>, dt: real, n: nat): seq<Particle>
    requires n <= |ps|
  {
    if n == 0 then []
    else
      var q := Particle(ps[n - 1].life - dt);
      if q.life > 0.0 then AgeParticles(ps, dt, n - 1) + [q] else AgeParticles(ps, dt, n - 1)
  }

  // ---------- powerups and buff ----------

  predicate Picked(pu: Powerup, p: Player) {
    CirclesOverlap(pu.x, pu.y, pu.r, p.x, p.y, PlayerRadius)
  }

  /** One powerup's turn: picked up (heal adds a life up to the maximum, rapid
      starts or renews the buff; an explosion marks it) or dropped when older
      than 12 seconds. */
  function CollectPowerup(s: Snapshot, pu: Powerup, t: real, rnd: Rand): Outcome {
    if Picked(pu, s.player) then
      var gained :=
        if pu.kind == Heal then s.(lives := if s.lives + 1 < MaxLives then s.lives + 1 else MaxLives)
        else s.(buff := Buff(RapidBuff, t + RapidDuration));
      Outcome(Explode(gained, rnd), false)
    else
      Outcome(s, !(t - pu.spawned > PowerupLifetime))
  }

  /** The powerup loop after its first `n` iterations: the state threaded
      through those powerups and the ones kept, in order. */
  datatype Harvest = Harvest(state: Snapshot, alive: seq<Powerup>)

  function SweepPowerups(s: Snapshot, pus: seq<Powerup>, t: real, rnd: Rand, n: nat): Harvest
    requires n <= |pus|
  {
    if n == 0 then Harvest(s, [])
    else
      var prev := SweepPowerups(s, pus, t, rnd, n - 1);
      var out := CollectPowerup(prev.state, pus[n - 1], t, rnd);
      Harvest(out.state, if out.keep then prev.alive + [pus[n - 1]] else prev.alive)
  }

  function PowerupsPhase(s: Snapshot, t: real, rnd: Rand): Snapshot {
    var h := SweepPowerups(s, s.powerups, t, rnd, |s.powerups|);
    h.state.(powerups := h.alive)
  }

  /** The buff is cleared once its expiry time has passed. */
  function ExpireBuff(s: Snapshot, t: real): (s': Snapshot)
    ensures s' == s.(buff := s'.buff)
    ensures s.buff.kind == RapidBuff && t > s.buff.until ==> s'.buff == Buff(NoBuff, 0.0)
    ensures !(s.buff.kind == RapidBuff && t > s.buff.until) ==> s'.buff == s.buff
  {
    if s.buff.kind == RapidBuff && t > s.buff.until then s.(buff := Buff(NoBuff, 0.0)) else s
  }

  // ---------- the frame ----------

  /** `update(dt)` at time `t` with input `cmd`: nothing happens while paused or
      after game over; otherwise the phases run in the source's order. */
  function Step(s: Snapshot, dt: real, t: real, cmd: Command, rnd: Rand, hypot: Hypot): Snapshot {
    if s.paused || s.gameOver then s
    else
      var s1 := AimAndFire(s, dt, t, cmd, hypot);
      var s2 := MovePlayer(s1, dt, cmd, hypot);
      var s3 := EnemiesPhase(s2, dt, t, hypot);
      var s4 := SpawnPhase(s3, t, rnd);
      var s5 := s4.(powerups := Pulse(s4.powerups, dt));
      var s6 := BulletsPhase(s5, dt, t, rnd);
      var s7 := s6.(particles := AgeParticles(s6.particles, dt, |s6.particles|));
      var s8 := PowerupsPhase(s7, t, rnd);
      ExpireBuff(s8, t)
  }
}
