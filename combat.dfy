/** What the per-item rules of a frame guarantee: the ordered removal checks of
    the bullet loop, a strike on an enemy, `damagePlayer`, a powerup pickup, and
    the three survivor loops (bullets, particles, powerups) as order-keeping
    filters. Also the two behaviours of the bullet loop that the source really
    has: enemy bullets survive a non-fatal hit, and lives can drop below 0. */
module Combat {
  import opened Geometry
  import opened Tuning
  import opened Entities
  import opened Rules

  // ---------- one bullet ----------

  /** Some enemy of the list overlaps a bullet at (x, y). */
  predicate HitsSome(es: seq<Enemy>, x: real, y: real) {
    exists j :: 0 <= j < |es| && HitsEnemy(es[j], x, y)
  }

  /** A player bullet strikes the first enemy it overlaps, and it overlaps one
      exactly when `FirstHit` finds one. */
  lemma FirstHitFindsAny(es: seq<Enemy>, x: real, y: real)
    ensures FirstHit(es, x, y) < |es| <==> HitsSome(es, x, y)
  {
    if HitsSome(es, x, y) {
      var j :| 0 <= j < |es| && HitsEnemy(es[j], x, y);
      assert FirstHit(es, x, y) <= j;
    }
  }

  /** The bullet, moved by v·dt, is removed by the first of four checks that
      applies, in this order: a wall, the arena bounds, its 2.2 s lifetime, its
      target (an enemy bullet the player, a player bullet some enemy). The first
      three remove it without touching the state; a hit on the player runs
      `damagePlayer`; a hit on the enemies strikes the first one overlapped. It
      survives exactly when no check applies, and then nothing else changes. */
  lemma ResolveBulletOrder(s: Snapshot, b: Bullet, dt: real, t: real, rnd: Rand)
    ensures var m := Advance(b, dt);
            var out := ResolveBullet(s, b, dt, t, rnd);
            out.keep <==>
              !CollidesWithWalls(s.walls, m.x, m.y, BulletRadius) && !OutOfBounds(m) && !Expired(m, t) &&
              !(m.owner == EnemyShot && CirclesOverlap(m.x, m.y, BulletRadius, s.player.x, s.player.y, PlayerRadius)) &&
              !(m.owner == PlayerShot && HitsSome(s.enemies, m.x, m.y))
    ensures var out := ResolveBullet(s, b, dt, t, rnd);
            out.keep ==> out.state == s
    ensures var m := Advance(b, dt);
            CollidesWithWalls(s.walls, m.x, m.y, BulletRadius) || OutOfBounds(m) || Expired(m, t) ==>
              ResolveBullet(s, b, dt, t, rnd) == Outcome(s, false)
    ensures var m := Advance(b, dt);
            !CollidesWithWalls(s.walls, m.x, m.y, BulletRadius) && !OutOfBounds(m) && !Expired(m, t) &&
            m.owner == EnemyShot && CirclesOverlap(m.x, m.y, BulletRadius, s.player.x, s.player.y, PlayerRadius) ==>
              ResolveBullet(s, b, dt, t, rnd) == Outcome(Damage(s, rnd), false)
    ensures var m := Advance(b, dt);
            !CollidesWithWalls(s.walls, m.x, m.y, BulletRadius) && !OutOfBounds(m) && !Expired(m, t) &&
            m.owner == PlayerShot && HitsSome(s.enemies, m.x, m.y) ==>
              FirstHit(s.enemies, m.x, m.y) < |s.enemies| &&
              ResolveBullet(s, b, dt, t, rnd) == Outcome(StrikeEnemy(s, FirstHit(s.enemies, m.x, m.y), rnd), false)
  {
    var m := Advance(b, dt);
    FirstHitFindsAny(s.enemies, m.x, m.y);
  }

  // ---------- strikes ----------

  /** A strike costs enemy `i` one hit point. An enemy with at most 1 left is
      removed, the others keeping their order, its variant's score is added and
      two explosions are spawned; otherwise it stays in place with one point
      less, the score is kept and one explosion is spawned. Lives, wave, player
      and bullets are untouched. */
  lemma StrikeEffects(s: Snapshot, i: nat, rnd: Rand)
    requires i < |s.enemies|
    ensures var s' := StrikeEnemy(s, i, rnd);
            var e := s.enemies[i];
            e.hp <= 1 ==>
              s'.enemies == s.enemies[..i] + s.enemies[i + 1..] && |s'.enemies| == |s.enemies| - 1 &&
              s'.score == s.score + ScoreValue(e.variant) &&
              |s'.particles| == |s.particles| + 2 * BurstSize
    ensures var s' := StrikeEnemy(s, i, rnd);
            var e := s.enemies[i];
            e.hp > 1 ==>
              |s'.enemies| == |s.enemies| && s'.enemies[i] == e.(hp := e.hp - 1) &&
              (forall k :: 0 <= k < |s.enemies| && k != i ==> s'.enemies[k] == s.enemies[k]) &&
              s'.score == s.score && |s'.particles| == |s.particles| + BurstSize
    ensures var s' := StrikeEnemy(s, i, rnd);
            s'.lives == s.lives && s'.wave == s.wave && s'.player == s.player && s'.bullets == s.bullets &&
            s'.gameOver == s.gameOver && s'.nextSpawnDelay == s.nextSpawnDelay && s'.lastSpawnAt == s.lastSpawnAt &&
            s'.walls == s.walls && s'.powerups == s.powerups && s'.buff == s.buff && s'.records == s.records
  {
  }

  /** A heavy at full strength survives two strikes with 2 and then 1 hit
      point left, in the same place of the list, and the third strike removes it
      and scores 25. */
  lemma HeavyNeedsThreeHits(s: Snapshot, i: nat, rnd: Rand)
    requires i < |s.enemies| && s.enemies[i].variant == Heavy && s.enemies[i].hp == MaxHp(Heavy)
    ensures var s1 := StrikeEnemy(s, i, rnd);
            |s1.enemies| == |s.enemies| && s1.enemies[i].hp == 2 && s1.score == s.score &&
            var s2 := StrikeEnemy(s1, i, rnd);
            |s2.enemies| == |s.enemies| && s2.enemies[i].hp == 1 && s2.score == s.score &&
            var s3 := StrikeEnemy(s2, i, rnd);
            s3.enemies == s.enemies[..i] + s.enemies[i + 1..] && s3.score == s.score + 25
  {
    var s1 := StrikeEnemy(s, i, rnd);
    StrikeEffects(s, i, rnd);
    var s2 := StrikeEnemy(s1, i, rnd);
    StrikeEffects(s1, i, rnd);
    StrikeEffects(s2, i, rnd);
    assert s2.enemies[..i] == s.enemies[..i];
    assert s2.enemies[i + 1..] == s.enemies[i + 1..];
  }

  // ---------- damagePlayer ----------

  /** The leaderboard keeps the larger of each stored value and the finished
      game's value: the score, and the last wave completed (wave - 1). */
  lemma SaveRecordsKeepsBest(r: Records, score: int, wave: int)
    ensures var r' := SaveRecords(r, score, wave);
            r'.highScore >= r.highScore && r'.highScore >= score &&
            (r'.highScore == r.highScore || r'.highScore == score) &&
            r'.bestWave >= r.bestWave && r'.bestWave >= wave - 1 &&
            (r'.bestWave == r.bestWave || r'.bestWave == wave - 1)
    ensures var r' := SaveRecords(r, score, wave);
            r'.highScore != r.highScore <==> score > r.highScore
    ensures var r' := SaveRecords(r, score, wave);
            r'.bestWave != r.bestWave <==> wave - 1 > r.bestWave
  {
  }

  /** `damagePlayer` takes exactly one life. The game ends exactly when no life
      is left (or had already ended); a fatal hit leaves player and bullets
      alone and stores the records, a non-fatal one puts the player back at the
      start and filters out the enemy bullets of `state.bullets` (a filter the
      bullet loop later overwrites: see `EnemyBulletOutlivesHit`). One explosion
      is spawned either way; score, wave and enemies are untouched. */
  lemma DamageEffects(s: Snapshot, rnd: Rand)
    ensures var s' := Damage(s, rnd);
            s'.lives == s.lives - 1 && (s'.gameOver <==> s.gameOver || s.lives - 1 <= 0) &&
            s'.score == s.score && s'.wave == s.wave && s'.enemies == s.enemies && s'.powerups == s.powerups &&
            s'.paused == s.paused && s'.buff == s.buff && s'.walls == s.walls &&
            s'.nextSpawnDelay == s.nextSpawnDelay && s'.lastSpawnAt == s.lastSpawnAt &&
            |s'.particles| == |s.particles| + BurstSize
    ensures var s' := Damage(s, rnd);
            s.lives - 1 <= 0 ==>
              s'.player == s.player && s'.bullets == s.bullets && s'.records == SaveRecords(s.records, s.score, s.wave)
    ensures var s' := Damage(s, rnd);
            s.lives - 1 > 0 ==>
              s'.player == s.player.(x := StartX, y := StartY) && s'.records == s.records &&
              (forall b :: b in s'.bullets <==> b in s.bullets && b.owner == PlayerShot)
  {
    var s' := Damage(s, rnd);
    if s.lives - 1 > 0 {
      forall b ensures b in s'.bullets <==> b in s.bullets && b.owner == PlayerShot {
        assert b.owner != EnemyShot <==> b.owner == PlayerShot;
      }
    }
  }

  // ---------- powerups ----------

  /** A powerup the player overlaps is taken and removed: heal gives one life up
      to 3, rapid starts (or renews) the buff until t + 6; an explosion marks the
      pickup. One the player does not reach changes nothing and stays exactly
      while it is at most 12 s old. */
  lemma CollectPowerupEffects(s: Snapshot, pu: Powerup, t: real, rnd: Rand)
    ensures var out := CollectPowerup(s, pu, t, rnd);
            Picked(pu, s.player) ==>
              !out.keep && |out.state.particles| == |s.particles| + BurstSize &&
              out.state.score == s.score && out.state.wave == s.wave && out.state.enemies == s.enemies &&
              out.state.player == s.player && out.state.gameOver == s.gameOver &&
              out.state.nextSpawnDelay == s.nextSpawnDelay && out.state.lastSpawnAt == s.lastSpawnAt
    ensures var out := CollectPowerup(s, pu, t, rnd);
            Picked(pu, s.player) && pu.kind == Heal ==>
              out.state.lives == (if s.lives + 1 <= MaxLives then s.lives + 1 else MaxLives) &&
              out.state.buff == s.buff
    ensures var out := CollectPowerup(s, pu, t, rnd);
            Picked(pu, s.player) && pu.kind == Rapid ==>
              out.state.lives == s.lives && out.state.buff == Buff(RapidBuff, t + RapidDuration)
    ensures var out := CollectPowerup(s, pu, t, rnd);
            !Picked(pu, s.player) ==> out.state == s && (out.keep <==> t - pu.spawned <= PowerupLifetime)
  {
  }

  // ---------- the survivor loops ----------

  /** `idx` lists, in increasing order, positions below `n` of a list. */
  predicate Ascending(idx: seq<nat>, n: nat) {
    (forall k :: 0 <= k < |idx| ==> idx[k] < n) &&
    (forall k, l :: 0 <= k < l < |idx| ==> idx[k] < idx[l])
  }

  /** The enemy loop starts from the bullets already there, and each further
      enemy turn appends that turn's shots, at most one bullet. */
  lemma EnemiesActAppends(es: seq<Enemy>, bs: seq<Bullet>, target: Player, walls: seq<Rect>,
                          dt: real, t: real, hypot: Hypot, n: nat)
    requires n <= |es|
    ensures n == 0 ==> EnemiesAct(es, bs, target, walls, dt, t, hypot, n).bullets == bs
    ensures n > 0 ==>
              EnemiesAct(es, bs, target, walls, dt, t, hypot, n).bullets ==
              EnemiesAct(es, bs, target, walls, dt, t, hypot, n - 1).bullets + EnemyTurn(es[n - 1], target, walls, dt, t, hypot).shots &&
              |EnemyTurn(es[n - 1], target, walls, dt, t, hypot).shots| <= 1
  {
    if n > 0 {
      EnemyTurnFacts(es[n - 1], target, walls, dt, t, hypot);
    }
  }

  /** The bullets the enemy loop appends are exactly the shots of the enemies
      whose turn fired, one each, in enemy order, after the bullets that were
      already there. `idx` names the enemy behind each appended bullet. */
  lemma {:induction false} EnemiesActShots(es: seq<Enemy>, bs: seq<Bullet>, target: Player, walls: seq<Rect>,
                                           dt: real, t: real, hypot: Hypot, n: nat)
    returns (idx: seq<nat>)
    requires n <= |es|
    ensures var v := EnemiesAct(es, bs, target, walls, dt, t, hypot, n);
            |v.bullets| == |bs| + |idx| && v.bullets[..|bs|] == bs && Ascending(idx, n) &&
            (forall k :: 0 <= k < |idx| ==>
               EnemyTurn(es[idx[k]], target, walls, dt, t, hypot).shots == [v.bullets[|bs| + k]])
    ensures forall j :: 0 <= j < n && EnemyTurn(es[j], target, walls, dt, t, hypot).shots != [] ==> j in idx
  {
    hide EnemiesAct, EnemyTurn;
    EnemiesActAppends(es, bs, target, walls, dt, t, hypot, n);
    if n == 0 {
      idx := [];
    } else {
      var prev := EnemiesActShots(es, bs, target, walls, dt, t, hypot, n - 1);
      var v0 := EnemiesAct(es, bs, target, walls, dt, t, hypot, n - 1).bullets;
      var shots := EnemyTurn(es[n - 1], target, walls, dt, t, hypot).shots;
      var bullets := v0 + shots;
      assert bullets[..|bs|] == v0[..|bs|];
      if shots != [] {
        idx := prev + [n - 1];
        forall k | 0 <= k < |idx|
          ensures EnemyTurn(es[idx[k]], target, walls, dt, t, hypot).shots == [bullets[|bs| + k]]
        {
          if k < |prev| { assert bullets[|bs| + k] == v0[|bs| + k] && idx[k] == prev[k]; }
        }
      } else {
        idx := prev;
      }
    }
  }

  /** The bullets that survive the loop are the bullets of the original list,
      moved by v·dt, that their own turn kept (given the state the earlier
      bullets left), in their original order; nothing is added. `idx` names the
      position each survivor came from. */
  lemma {:induction false} SweepBulletsKeepsOrder(s: Snapshot, bs: seq<Bullet>, dt: real, t: real, rnd: Rand, n: nat)
    returns (idx: seq<nat>)
    requires n <= |bs|
    ensures var w := SweepBullets(s, bs, dt, t, rnd, n);
            |idx| == |w.alive| <= n && Ascending(idx, n) &&
            (forall k :: 0 <= k < |idx| ==> w.alive[k] == Advance(bs[idx[k]], dt))
    ensures forall k :: 0 <= k < |idx| ==> KeptBullet(s, bs, dt, t, rnd, idx[k])
    ensures forall j :: 0 <= j < n && KeptBullet(s, bs, dt, t, rnd, j) ==> j in idx
  {
    hide ResolveBullet, Advance;
    if n == 0 {
      idx := [];
    } else {
      var prev := SweepBulletsKeepsOrder(s, bs, dt, t, rnd, n - 1);
      var w0 := SweepBullets(s, bs, dt, t, rnd, n - 1);
      if KeptBullet(s, bs, dt, t, rnd, n - 1) {
        idx := prev + [n - 1];
        var alive := w0.alive + [Advance(bs[n - 1], dt)];
        assert SweepBullets(s, bs, dt, t, rnd, n).alive == alive;
        forall k | 0 <= k < |idx| ensures alive[k] == Advance(bs[idx[k]], dt) {
          if k < |prev| { assert alive[k] == w0.alive[k] && idx[k] == prev[k]; }
        }
      } else {
        idx := prev;
        assert SweepBullets(s, bs, dt, t, rnd, n).alive == w0.alive;
      }
    }
  }

  /** Bullet `j` of the list survives its own turn, taken in the state the
      bullets before it left. */
  predicate KeptBullet(s: Snapshot, bs: seq<Bullet>, dt: real, t: real, rnd: Rand, j: nat)
    requires j < |bs|
  {
    ResolveBullet(SweepBullets(s, bs, dt, t, rnd, j).state, bs[j], dt, t, rnd).keep
  }

  /** The particles that survive are those of the original list whose life
      minus dt is still positive, with that life, in their original order. */
  lemma {:induction false} AgeParticlesKeepsOrder(ps: seq<Particle>, dt: real, n: nat) returns (idx: seq<nat>)
    requires n <= |ps|
    ensures var r := AgeParticles(ps, dt, n);
            |idx| == |r| <= n && Ascending(idx, n) &&
            (forall k :: 0 <= k < |idx| ==> r[k] == Particle(ps[idx[k]].life - dt) && r[k].life > 0.0)
    ensures forall j :: 0 <= j < n && ps[j].life - dt > 0.0 ==> j in idx
  {
    if n == 0 {
      idx := [];
    } else {
      var prev := AgeParticlesKeepsOrder(ps, dt, n - 1);
      var r0 := AgeParticles(ps, dt, n - 1);
      var q := Particle(ps[n - 1].life - dt);
      if q.life > 0.0 {
        idx := prev + [n - 1];
        var r := r0 + [q];
        assert AgeParticles(ps, dt, n) == r;
        forall k | 0 <= k < |idx| ensures r[k] == Particle(ps[idx[k]].life - dt) && r[k].life > 0.0 {
          if k < |prev| { assert r[k] == r0[k] && idx[k] == prev[k]; }
        }
      } else {
        idx := prev;
        assert AgeParticles(ps, dt, n) == r0;
      }
    }
  }

  /** The powerups that stay are those of the original list that their own
      turn kept, unchanged and in their original order. */
  lemma {:induction false} SweepPowerupsKeepsOrder(s: Snapshot, pus: seq<Powerup>, t: real, rnd: Rand, n: nat)
    returns (idx: seq<nat>)
    requires n <= |pus|
    ensures var h := SweepPowerups(s, pus, t, rnd, n);
            |idx| == |h.alive| <= n && Ascending(idx, n) &&
            (forall k :: 0 <= k < |idx| ==> h.alive[k] == pus[idx[k]])
    ensures forall k :: 0 <= k < |idx| ==> KeptPowerup(s, pus, t, rnd, idx[k])
    ensures forall j :: 0 <= j < n && KeptPowerup(s, pus, t, rnd, j) ==> j in idx
  {
    if n == 0 {
      idx := [];
    } else {
      var prev := SweepPowerupsKeepsOrder(s, pus, t, rnd, n - 1);
      var h0 := SweepPowerups(s, pus, t, rnd, n - 1);
      if KeptPowerup(s, pus, t, rnd, n - 1) {
        idx := prev + [n - 1];
        var alive := h0.alive + [pus[n - 1]];
        assert SweepPowerups(s, pus, t, rnd, n).alive == alive;
        forall k | 0 <= k < |idx| ensures alive[k] == pus[idx[k]] {
          if k < |prev| { assert alive[k] == h0.alive[k] && idx[k] == prev[k]; }
        }
      } else {
        idx := prev;
        assert SweepPowerups(s, pus, t, rnd, n).alive == h0.alive;
      }
    }
  }

  /** Powerup `j` of the list stays after its own turn, taken in the state the
      powerups before it left. */
  predicate KeptPowerup(s: Snapshot, pus: seq<Powerup>, t: real, rnd: Rand, j: nat)
    requires j < |pus|
  {
    CollectPowerup(SweepPowerups(s, pus, t, rnd, j).state, pus[j], t, rnd).keep
  }

  // ---------- lives across the bullet loop ----------

  /** One bullet costs at most one life and never gives one back. */
  lemma ResolveBulletLives(s: Snapshot, b: Bullet, dt: real, t: real, rnd: Rand)
    ensures var out := ResolveBullet(s, b, dt, t, rnd);
            s.lives - 1 <= out.state.lives <= s.lives
  {
    var m := Advance(b, dt);
    if FirstHit(s.enemies, m.x, m.y) < |s.enemies| {
      StrikeEffects(s, FirstHit(s.enemies, m.x, m.y), rnd);
    }
    DamageEffects(s, rnd);
  }

  /** Over the first `n` bullets at most `n` lives are lost and none gained:
      nothing stops the loop after a fatal hit, so lives are not bounded below
      by 0 (see `LivesCanGoNegative`). */
  lemma {:induction false} SweepBulletsLives(s: Snapshot, bs: seq<Bullet>, dt: real, t: real, rnd: Rand, n: nat)
    requires n <= |bs|
    ensures var w := SweepBullets(s, bs, dt, t, rnd, n);
            s.lives - n <= w.state.lives <= s.lives
  {
    if n > 0 {
      SweepBulletsLives(s, bs, dt, t, rnd, n - 1);
      ResolveBulletLives(SweepBullets(s, bs, dt, t, rnd, n - 1).state, bs[n - 1], dt, t, rnd);
    }
  }

  // ---------- the two quirks ----------

  /** A running game with the player at the start position, `lives` lives and no
      walls, enemies or powerups, holding the given bullets. */
  function Arena(lives: int, bs: seq<Bullet>): Snapshot {
    Snapshot(false, false, 0, lives, 1, 0.0, SpawnIntervalBase, NewPlayer(), [], bs, [],
             [], [], Buff(NoBuff, 0.0), Records(0, 0), 0)
  }

  /** An enemy bullet at rest at (x, y), fired at time 0. */
  function Resting(x: real, y: real): Bullet {
    Bullet(x, y, 0.0, 0.0, EnemyShot, 0.0)
  }

  /** Two enemy bullets, one on the player and one far away, with 3 lives: the
      first costs a life and `damagePlayer` clears the enemy bullets from
      `state.bullets`, but the loop goes on over the list it started with and
      then stores its survivors, so the second enemy bullet is still there. */
  lemma EnemyBulletOutlivesHit(rnd: Rand)
    ensures var s' := BulletsPhase(Arena(3, [Resting(StartX, StartY), Resting(100.0, 100.0)]), 0.0, 0.0, rnd);
            s'.lives == 2 && !s'.gameOver && s'.bullets == [Resting(100.0, 100.0)]
  {
    hide Damage, StrikeEnemy;
    var near, far := Resting(StartX, StartY), Resting(100.0, 100.0);
    var s := Arena(3, [near, far]);
    ResolveBulletOrder(s, near, 0.0, 0.0, rnd);
    assert CirclesOverlap(StartX, StartY, BulletRadius, s.player.x, s.player.y, PlayerRadius);
    var s1 := Damage(s, rnd);
    DamageEffects(s, rnd);
    assert SweepBullets(s, s.bullets, 0.0, 0.0, rnd, 1) == Sweep(s1, []);
    ResolveBulletOrder(s1, far, 0.0, 0.0, rnd);
    assert !CirclesOverlap(100.0, 100.0, BulletRadius, s1.player.x, s1.player.y, PlayerRadius);
    assert SweepBullets(s, s.bullets, 0.0, 0.0, rnd, 2) == Sweep(s1, [far]);
  }

  /** Two enemy bullets on the player with one life left: the first ends the game
      without moving the player, the loop carries on, and the second takes the
      lives to -1. */
  lemma LivesCanGoNegative(rnd: Rand)
    ensures var s' := BulletsPhase(Arena(1, [Resting(StartX, StartY), Resting(StartX, StartY)]), 0.0, 0.0, rnd);
            s'.lives == -1 && s'.gameOver
  {
    hide Damage, StrikeEnemy;
    var near := Resting(StartX, StartY);
    var s := Arena(1, [near, near]);
    ResolveBulletOrder(s, near, 0.0, 0.0, rnd);
    assert CirclesOverlap(StartX, StartY, BulletRadius, s.player.x, s.player.y, PlayerRadius);
    var s1 := Damage(s, rnd);
    DamageEffects(s, rnd);
    assert SweepBullets(s, s.bullets, 0.0, 0.0, rnd, 1) == Sweep(s1, []);
    ResolveBulletOrder(s1, near, 0.0, 0.0, rnd);
    var s2 := Damage(s1, rnd);
    DamageEffects(s1, rnd);
    assert SweepBullets(s, s.bullets, 0.0, 0.0, rnd, 2) == Sweep(s2, []);
  }
}
