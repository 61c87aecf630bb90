/**
 * The wave table of app/Spawn.tsx: which archetype each tick of the spawn timer adds in each
 * of the forty rounds, how far the counter advances, and the round-advance condition.
 */
module LegacyWaves {
  import opened Entities
  import opened LegacyCatalog

  /** One spawn tick's outcome: the archetype appended and how far enemyCount advances. */
  datatype Wave = Wave(kind: Breed, step: nat)

  /**
   * The counter bound under which a round keeps spawning: 10 per round up to round 22, 15 per
   * round after it, and a fixed 320 in the first boss round (which is 10 per round there).
   */
  function SpawnLimit(round: nat): (n: nat)
    ensures round <= 22 || round == 32 ==> n == 10 * round
    ensures 22 < round && round != 32 ==> n == 15 * round
  {
    if round == 32 then 320 else if round <= 22 then 10 * round else 15 * round
  }

  /** How far one spawn advances the counter: a boss counts 80 in round 32 and 40 in round 40, an ultratank 3. */
  function SpawnStep(round: nat): (k: nat)
    ensures k >= 1
  {
    if round == 32 then 80 else if 32 < round <= 39 then 3 else if round == 40 then 40 else 1
  }

  /** The archetype a spawn tick adds, by round and by the counter's parity or remainder mod 3. */
  function Composition(round: nat, count: nat): Breed {
    if round <= 4 || (5 < round < 10) then BasicEnemy
    else if round == 5 then (if count % 2 == 0 then StealthEnemy else SpeedyEnemy)
    else if round <= 15 then
      (if count % 3 == 0 then StealthEnemy else if count % 3 == 1 then SpeedyEnemy else BasicEnemy)
    else if round <= 21 then
      (if count % 3 == 0 then StealthEnemy else if count % 3 == 1 then SpeedyEnemy else TankEnemy)
    else if round == 22 then RegenTank
    else if round <= 25 then
      (if count % 3 == 0 then StealthyTank else if count % 3 == 1 then StealthySpeedy else RegenTank)
    else if round <= 31 then (if count % 2 == 0 then StealthyTank else SpeedyRegenTank)
    else if round == 32 || round == 40 then Boss
    else UltraTanks
  }

  /**
   * The if-chain of spawnEnemies for a started round: while the counter is under the round's
   * limit, one enemy of the round's composition; past round 40, and at the limit, nothing.
   */
  function WaveSpawn(round: nat, count: nat): (w: Option<Wave>)
    ensures w.Some? <==> 1 <= round <= 40 && count < SpawnLimit(round)
    ensures w.Some? ==> w.value == Wave(Composition(round, count), SpawnStep(round))
  {
    if round == 0 || round > 40 || count >= SpawnLimit(round) then None
    else Some(Wave(Composition(round, count), SpawnStep(round)))
  }

  /**
   * The round-advance condition: the pool is empty and the counter has reached 10 per round
   * (the source's second disjunct, 15 per round, implies the first).
   */
  predicate Cleared(poolSize: nat, count: nat, round: nat) {
    poolSize == 0 && (count >= 10 * round || count >= 15 * round)
  }

  /** Once spawning stops in a round, the round can be cleared: no wave deadlocks. */
  lemma SpawningStopsWhenClearable(round: nat, count: nat)
    requires 1 <= round <= 40 && WaveSpawn(round, count).None?
    ensures Cleared(0, count, round)
  {
  }

  /**
   * From round 23 on (except round 32) a round can be cleared while its wave is still under
   * way: the counter reaches 10 per round with a third of the wave still to come.
   */
  lemma ClearableBeforeWaveEnds(round: nat)
    requires 23 <= round <= 40 && round != 32
    ensures Cleared(0, 10 * round, round)
    ensures WaveSpawn(round, 10 * round).Some?
    ensures SpawnLimit(round) - 10 * round == 5 * round
  {
  }

  /** How many spawn ticks still add an enemy in this round, from `count` on. */
  function WaveSize(round: nat, count: nat): nat
    decreases if count < SpawnLimit(round) then SpawnLimit(round) - count else 0
  {
    match WaveSpawn(round, count)
    case None => 0
    case Some(w) => 1 + WaveSize(round, count + w.step)
  }

  /**
   * A wave's length: when the steps divide what is left of the limit, exactly that many steps
   * are spawned, so every spawn that is counted is spawned.
   */
  lemma {:induction false} WaveSizeFills(round: nat, count: nat)
    requires 1 <= round <= 40 && count <= SpawnLimit(round)
    requires (SpawnLimit(round) - count) % SpawnStep(round) == 0
    ensures WaveSize(round, count) * SpawnStep(round) == SpawnLimit(round) - count
    decreases SpawnLimit(round) - count
  {
    var k, n := SpawnStep(round), SpawnLimit(round);
    if count < n {
      var r := n - count;
      assert (r - k) % k == 0 by {
        assert r == (r / k) * k;
        assert r - k == (r / k - 1) * k;
      }
      WaveSizeFills(round, count + k);
    }
  }

  /**
   * The boss rounds in numbers: round 32 sends 4 bosses, round 40 sends 15, and each of the
   * ultratank rounds 33..39 sends 5 per round.
   */
  lemma BossRounds(round: nat)
    requires 32 <= round <= 40
    ensures round == 32 ==> WaveSize(round, 0) == 4
    ensures round == 40 ==> WaveSize(round, 0) == 15
    ensures 32 < round < 40 ==> WaveSize(round, 0) == 5 * round
  {
    WaveSizeFills(round, 0);
  }

  /** Every other round sends one enemy per unit of its limit. */
  lemma PlainRounds(round: nat)
    requires 1 <= round <= 31
    ensures WaveSize(round, 0) == SpawnLimit(round)
  {
    WaveSizeFills(round, 0);
  }
}
