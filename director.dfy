/** The wave director: how many enemies a wave brings, which variant each one
    is, and how long until the next wave. */
module Director {
  import opened Geometry
  import opened Tuning

  /** Probability of a scout at this wave: 0.5 + 1% per wave, capped at 0.7. */
  function PScout(wave: int): (p: real)
    ensures 0.5 <= p <= 0.7
  {
    Clamp(0.5 + (wave as real) * 0.01, 0.5, 0.7)
  }

  /** Probability of a heavy at this wave: 0.2 + 1% per wave, capped at 0.35. */
  function PHeavy(wave: int): (p: real)
    ensures 0.2 <= p <= 0.35
  {
    Clamp(0.2 + (wave as real) * 0.01, 0.2, 0.35)
  }

  /** `chooseVariant` given the value `roll` drawn from `Math.random()`. */
  function ChooseVariant(wave: int, roll: real): (v: Variant)
    ensures v == Scout <==> roll < PScout(wave)
    ensures v == Heavy <==> PScout(wave) <= roll < PScout(wave) + PHeavy(wave)
    ensures v == Sniper <==> PScout(wave) + PHeavy(wave) <= roll
  {
    if roll < PScout(wave) then Scout
    else if roll < PScout(wave) + PHeavy(wave) then Heavy
    else Sniper
  }

  /** The scout and heavy bands leave room for snipers exactly up to wave 14. */
  lemma SniperBand(wave: int)
    requires wave >= 1
    ensures PScout(wave) + PHeavy(wave) < 1.0 <==> wave < 15
  {
    if wave < 15 {
      assert PScout(wave) == 0.5 + (wave as real) * 0.01;
      assert PHeavy(wave) == 0.2 + (wave as real) * 0.01;
    } else {
      assert PHeavy(wave) == 0.35;
    }
  }

  /** From wave 15 on no roll in [0, 1) produces a sniper. */
  lemma NoSniperFromWave15(wave: int, roll: real)
    requires wave >= 15 && 0.0 <= roll < 1.0
    ensures ChooseVariant(wave, roll) != Sniper
  {
    SniperBand(wave);
  }

  /** Before wave 15 a sniper is produced by any roll at or above the two bands. */
  lemma SniperBeforeWave15(wave: int)
    requires 1 <= wave < 15
    ensures ChooseVariant(wave, 0.99) == Sniper
  {
    assert PScout(wave) == 0.5 + (wave as real) * 0.01;
    assert PHeavy(wave) == 0.2 + (wave as real) * 0.01;
  }

  /** Enemies spawned by a wave: `2 + floor(wave * 1.2)`. */
  function WaveSize(wave: int): (n: int)
    ensures wave >= 0 ==> n >= 2
  {
    2 + ((wave as real) * 1.2).Floor
  }

  /** The wave size in integer terms: 2 + 6·wave/5 rounded down. */
  lemma {:induction false} WaveSizeExact(wave: nat)
    ensures WaveSize(wave) == 2 + (6 * wave) / 5
  {
    var q := (6 * wave) / 5;
    assert 5 * q <= 6 * wave < 5 * q + 5;
    assert (q as real) <= (wave as real) * 1.2 < (q as real) + 1.0;
  }

  lemma WaveSizeOfFirstWave()
    ensures WaveSize(1) == 3
  {
    WaveSizeExact(1);
  }

  /** Later waves are never smaller. */
  lemma WaveSizeMonotone(w1: nat, w2: nat)
    requires w1 <= w2
    ensures WaveSize(w1) <= WaveSize(w2)
  {
    WaveSizeExact(w1);
    WaveSizeExact(w2);
  }

  /** Seconds until the next wave once `wave` is current:
      `max(2.0, 6.0 - wave * 0.35)`. */
  function SpawnDelay(wave: int): (d: real)
    ensures d >= 2.0
    ensures wave >= 12 ==> d == 2.0
    ensures wave <= 11 ==> d > 2.0
  {
    Max(2.0, SpawnIntervalBase - (wave as real) * 0.35)
  }

  /** The delay shrinks (or stays at its floor) as waves advance. */
  lemma SpawnDelayNonIncreasing(w1: int, w2: int)
    requires w1 <= w2
    ensures SpawnDelay(w2) <= SpawnDelay(w1)
  {
  }
}
