/** The state invariant every frame keeps, phase by phase, and what a whole
    frame guarantees: it does nothing while paused or over, never lowers the
    score, and raises the wave by at most one. */
module Invariants {
  import opened Geometry
  import opened Tuning
  import opened Director
  import opened Entities
  import opened Rules
  import opened Combat

  /** Every enemy still in the list has at least one hit point. */
  predicate Healthy(es: seq<Enemy>) {
    forall k :: 0 <= k < |es| ==> es[k].hp >= 1
  }

  /** Every enemy lies within the arena's bounds. */
  predicate EnemiesInArena(es: seq<Enemy>) {
    forall k :: 0 <= k < |es| ==> InArena(es[k].x, es[k].y, EnemyRadius)
  }

  /** What every frame keeps true. Lives are only bounded above: they can go
      below 0 (see `LivesCanGoNegative`). */
  predicate Consistent(s: Snapshot) {
    s.wave >= 1 && s.score >= 0 && s.lives <= MaxLives && s.nextSpawnDelay >= 2.0 &&
    s.player.cooldown >= 0.0 && InArena(s.player.x, s.player.y, PlayerRadius) &&
    Healthy(s.enemies) && EnemiesInArena(s.enemies)
  }

  /** `resetGame` establishes the invariant from any state. */
  lemma ResetConsistent(s: Snapshot, t: real)
    ensures Consistent(Reset(s, t))
  {
  }

  // ---------- enemies ----------

  /** Removing one enemy, or lowering one enemy's hit points to a value >= 1,
      keeps every listed enemy alive and inside the arena. */
  lemma StrikeKeepsEnemies(es: seq<Enemy>, i: nat, hp: int)
    requires Healthy(es) && EnemiesInArena(es) && i < |es|
    ensures Healthy(es[..i] + es[i + 1..]) && EnemiesInArena(es[..i] + es[i + 1..])
    ensures hp >= 1 ==> Healthy(es[i := es[i].(hp := hp)]) && EnemiesInArena(es[i := es[i].(hp := hp)])
  {
    var r := es[..i] + es[i + 1..];
    forall k | 0 <= k < |r| ensures r[k] == es[if k < i then k else k + 1] {
    }
  }

  /** The enemy phase keeps every enemy alive and inside the arena and changes
      nothing but the enemies and the bullets. */
  lemma EnemiesPhaseKeepsConsistent(s: Snapshot, dt: real, t: real, hypot: Hypot)
    requires Consistent(s)
    ensures var s' := EnemiesPhase(s, dt, t, hypot);
            Consistent(s') && s' == s.(enemies := s'.enemies, bullets := s'.bullets)
  {
    var es := s.enemies;
    var v := EnemiesAct(es, s.bullets, s.player, s.walls, dt, t, hypot, |es|);
    EnemiesActSpec(es, s.bullets, s.player, s.walls, dt, t, hypot, |es|);
    forall k | 0 <= k < |es|
      ensures v.enemies[k].hp >= 1 && InArena(v.enemies[k].x, v.enemies[k].y, EnemyRadius)
    {
      EnemyTurnFacts(es[k], s.player, s.walls, dt, t, hypot);
    }
  }

  // ---------- waves ----------

  /** When the timer fires, the wave's `2 + floor(wave * 1.2)` enemies are
      appended (each with its variant's full hit points, spawned at t), the wave
      goes up by exactly 1, exactly one powerup is appended and the next delay
      is `max(2, 6 - 0.35 * wave)` of the new wave; otherwise nothing changes. */
  lemma SpawnPhaseEffects(s: Snapshot, t: real, rnd: Rand)
    requires s.wave >= 0
    ensures var s' := SpawnPhase(s, t, rnd);
            WaveDue(s, t) ==>
              |s'.enemies| == |s.enemies| + WaveSize(s.wave) && s'.enemies[..|s.enemies|] == s.enemies &&
              (forall k :: |s.enemies| <= k < |s'.enemies| ==>
                 s'.enemies[k].hp == MaxHp(s'.enemies[k].variant) && s'.enemies[k].spawn == t) &&
              s'.wave == s.wave + 1 &&
              |s'.powerups| == |s.powerups| + 1 && s'.powerups[..|s.powerups|] == s.powerups &&
              s'.lastSpawnAt == t && s'.nextSpawnDelay == SpawnDelay(s.wave + 1) &&
              s'.score == s.score && s'.lives == s.lives && s'.player == s.player && s'.bullets == s.bullets
    ensures !WaveDue(s, t) ==> SpawnPhase(s, t, rnd) == s
  {
    if WaveDue(s, t) {
      var s' := SpawnPhase(s, t, rnd);
      var spawned := WaveEnemies(rnd, s.draws, s.wave, t, WaveCount(s.wave));
      assert s'.enemies == s.enemies + spawned;
      assert s'.enemies[..|s.enemies|] == s.enemies;
      forall k | |s.enemies| <= k < |s'.enemies|
        ensures s'.enemies[k].hp == MaxHp(s'.enemies[k].variant) && s'.enemies[k].spawn == t
      {
        assert s'.enemies[k] == spawned[k - |s.enemies|];
      }
      assert s'.powerups[..|s.powerups|] == s.powerups;
    }
  }

  /** Spawned enemies start alive and inside the arena. */
  lemma SpawnPhaseKeepsConsistent(s: Snapshot, t: real, rnd: Rand)
    requires Consistent(s) && UnitRolls(rnd)
    ensures Consistent(SpawnPhase(s, t, rnd))
  {
    if WaveDue(s, t) {
      var s' := SpawnPhase(s, t, rnd);
      var spawned := WaveEnemies(rnd, s.draws, s.wave, t, WaveCount(s.wave));
      assert s'.enemies == s.enemies + spawned;
      forall k | 0 <= k < |s'.enemies|
        ensures s'.enemies[k].hp >= 1 && InArena(s'.enemies[k].x, s'.enemies[k].y, EnemyRadius)
      {
        if k >= |s.enemies| {
          assert s'.enemies[k] == spawned[k - |s.enemies|];
          assert spawned[k - |s.enemies|] == NewEnemy(rnd, s.draws + 4 * (k - |s.enemies|), s.wave, t);
        }
      }
    }
  }

  // ---------- bullets ----------

  /** One bullet keeps the invariant; the score never drops and the wave timer
      is untouched. */
  lemma ResolveBulletKeepsConsistent(s: Snapshot, b: Bullet, dt: real, t: real, rnd: Rand)
    requires Consistent(s)
    ensures var s' := ResolveBullet(s, b, dt, t, rnd).state;
            Consistent(s') && s'.score >= s.score && s'.wave == s.wave && s'.paused == s.paused &&
            s'.nextSpawnDelay == s.nextSpawnDelay && s'.lastSpawnAt == s.lastSpawnAt &&
            (s.gameOver ==> s'.gameOver)
  {
    var m := Advance(b, dt);
    var i := FirstHit(s.enemies, m.x, m.y);
    DamageEffects(s, rnd);
    if i < |s.enemies| {
      StrikeEffects(s, i, rnd);
      StrikeKeepsEnemies(s.enemies, i, s.enemies[i].hp - 1);
    }
  }

  lemma {:induction false} SweepBulletsKeepsConsistent(s: Snapshot, bs: seq<Bullet>, dt: real, t: real, rnd: Rand, n: nat)
    requires Consistent(s) && n <= |bs|
    ensures var s' := SweepBullets(s, bs, dt, t, rnd, n).state;
            Consistent(s') && s'.score >= s.score && s'.wave == s.wave && s'.paused == s.paused &&
            s'.nextSpawnDelay == s.nextSpawnDelay && s'.lastSpawnAt == s.lastSpawnAt &&
            (s.gameOver ==> s'.gameOver)
  {
    if n > 0 {
      SweepBulletsKeepsConsistent(s, bs, dt, t, rnd, n - 1);
      ResolveBulletKeepsConsistent(SweepBullets(s, bs, dt, t, rnd, n - 1).state, bs[n - 1], dt, t, rnd);
    }
  }

  // ---------- powerups ----------

  lemma CollectPowerupKeepsConsistent(s: Snapshot, pu: Powerup, t: real, rnd: Rand)
    requires Consistent(s)
    ensures var s' := CollectPowerup(s, pu, t, rnd).state;
            Consistent(s') && s'.score == s.score && s'.wave == s.wave && s'.paused == s.paused &&
            s'.gameOver == s.gameOver
  {
    CollectPowerupEffects(s, pu, t, rnd);
  }

  lemma {:induction false} SweepPowerupsKeepsConsistent(s: Snapshot, pus: seq<Powerup>, t: real, rnd: Rand, n: nat)
    requires Consistent(s) && n <= |pus|
    ensures var s' := SweepPowerups(s, pus, t, rnd, n).state;
            Consistent(s') && s'.score == s.score && s'.wave == s.wave && s'.paused == s.paused &&
            s'.gameOver == s.gameOver
  {
    if n > 0 {
      SweepPowerupsKeepsConsistent(s, pus, t, rnd, n - 1);
      CollectPowerupKeepsConsistent(SweepPowerups(s, pus, t, rnd, n - 1).state, pus[n - 1], t, rnd);
    }
  }

  // ---------- the frame ----------

  /** `update` returns at once while paused or after game over. */
  lemma StepGated(s: Snapshot, dt: real, t: real, cmd: Command, rnd: Rand, hypot: Hypot)
    requires s.paused || s.gameOver
    ensures Step(s, dt, t, cmd, rnd, hypot) == s
  {
  }

  /** A frame keeps the invariant (wave >= 1, score >= 0, lives <= 3, spawn
      delay >= 2 s, player cooldown >= 0, player and enemies inside the arena,
      every listed enemy with hp >= 1), never lowers the score, raises the wave
      by at most one, never pauses or resumes, and never revives a finished
      game. */
  lemma StepPreservesConsistent(s: Snapshot, dt: real, t: real, cmd: Command, rnd: Rand, hypot: Hypot)
    requires Consistent(s) && UnitRolls(rnd)
    ensures var s' := Step(s, dt, t, cmd, rnd, hypot);
            Consistent(s') && s'.score >= s.score && s.wave <= s'.wave <= s.wave + 1 &&
            s'.paused == s.paused && (s.gameOver ==> s'.gameOver)
  {
    if !(s.paused || s.gameOver) {
      var s1 := AimAndFire(s, dt, t, cmd, hypot);
      var s2 := MovePlayer(s1, dt, cmd, hypot);
      MovePlayerFacts(s1, dt, cmd, hypot);
      var s3 := EnemiesPhase(s2, dt, t, hypot);
      EnemiesPhaseKeepsConsistent(s2, dt, t, hypot);
      var s4 := SpawnPhase(s3, t, rnd);
      SpawnPhaseKeepsConsistent(s3, t, rnd);
      SpawnPhaseEffects(s3, t, rnd);
      var s5 := s4.(powerups := Pulse(s4.powerups, dt));
      SweepBulletsKeepsConsistent(s5, s5.bullets, dt, t, rnd, |s5.bullets|);
      var s6 := BulletsPhase(s5, dt, t, rnd);
      var s7 := s6.(particles := AgeParticles(s6.particles, dt, |s6.particles|));
      SweepPowerupsKeepsConsistent(s7, s7.powerups, t, rnd, |s7.powerups|);
    }
  }
}
