/**
 * Wave Director of app/GameLogic.tsx: the per-round enemy limit, the per-round spawn
 * composition table run by the spawn timer, and the round-advance condition.
 */
module WaveDirector {
  import opened Entities

  /** getEnemyLimit: how many enemy units a round is worth before it can be cleared. */
  function EnemyLimit(round: int): (n: int)
    ensures round <= 26 ==> n == 10 * round
    ensures 27 <= round <= 30 ==> n == 15 * round
    // above round 30: the least n with 2n >= 15 * round, i.e. ceil(15 * round / 2)
    ensures round > 30 ==> 2 * n >= 15 * round && 2 * (n - 1) < 15 * round
  {
    if round <= 26 then 10 * round
    else if round > 30 then (15 * round + 1) / 2
    else 15 * round
  }

  /** One spawn-timer tick's outcome: the archetype appended and how far enemyCount advances. */
  datatype Spawn = Spawn(kind: EnemyKind, step: nat)

  /** The counter bound under which a round keeps spawning (round 32 uses a fixed 320). */
  function SpawnCap(round: nat): int {
    if round == 32 then 320 else EnemyLimit(round)
  }

  /** The body of one `case` of spawnEnemies: spawn only while the counter is under the limit. */
  function While(cond: bool, s: Spawn): Option<Spawn> { if cond then Some(s) else None }

  /**
   * The `switch (true)` of spawnEnemies for rounds 1..50: the composition table.
   * Round 0 and rounds past 50 spawn nothing.
   */
  function WaveSpawn(round: nat, count: nat): (s: Option<Spawn>)
    ensures s.Some? <==> 1 <= round <= 50 && count < SpawnCap(round)
    ensures s.Some? ==> s.value.step >= 1
    ensures s.Some? && round <= 9 && round != 5 ==> s.value == Spawn(BasicEnemy, 1)
  {
    var limit := EnemyLimit(round);
    if round == 0 then None
    else if round <= 4 || (5 < round < 10) then While(count < limit, Spawn(BasicEnemy, 1))
    else if round == 5 then
      While(count < limit, Spawn(if count % 2 == 0 then StealthEnemy else SpeedyEnemy, 1))
    else if 10 <= round <= 12 then
      While(count < limit, Spawn(
        if count % 3 == 0 then StealthEnemy else if count % 3 == 1 then SpeedyEnemy else BasicEnemy, 1))
    else if 13 <= round <= 15 then
      While(count < limit, Spawn(
        if count % 3 == 0 then StealthEnemy else if count % 3 == 1 then SpeedyEnemy else ArmoredBasic, 1))
    else if 15 < round <= 21 then
      While(count < limit, Spawn(
        if count % 3 == 0 then StealthEnemy else if count % 3 == 1 then SpeedyEnemy else TankEnemy, 1))
    else if round == 22 then While(count < limit, Spawn(RegenTank, 1))
    else if 23 <= round <= 25 then
      While(count < limit, Spawn(
        if count % 3 == 0 then StealthyTank else if count % 3 == 1 then StealthySpeedy else ArmoredTank, 1))
    else if 26 <= round <= 31 then
      While(count < limit, Spawn(if count % 2 == 0 then StealthyTank else SpeedyRegenTank, 1))
    else if round == 32 then While(count < 320, Spawn(Boss, 80))
    else if 32 < round <= 39 then
      While(count < limit, Spawn(
        if count % 50 == 0 then Boss else if count % 2 == 0 then ArmoredUltraTank else UltraTanks, 2))
    else if round == 40 then While(count < limit, Spawn(Boss, 35))
    else if 41 <= round <= 44 then
      While(count < limit, Spawn(
        if count % 50 == 0 then Boss else if count % 2 == 0 then ArmoredSpeedyMegaTank else SpeedyMegaTank, 1))
    else if round == 45 then While(count < limit, Spawn(MegaBoss, 50))
    else if 46 <= round <= 49 then
      While(count < limit, Spawn(
        if count % 100 == 0 then MegaBoss else if count % 2 == 0 then Spawner else SpeedyMegaTank, 1))
    else if round == 50 then While(count < limit, Spawn(MegaBoss, 35))
    else None
  }

  /** The round-advance condition: pool empty, counter at the limit, game started. */
  predicate RoundCleared(poolSize: nat, count: int, round: nat) {
    poolSize == 0 && count >= EnemyLimit(round) && round != 0
  }

  /** Spawning in rounds 1..50 stops only once the round can be cleared: no wave deadlocks. */
  lemma SpawningStopsAtLimit(round: nat, count: nat)
    requires 1 <= round <= 50
    requires WaveSpawn(round, count).None?
    ensures RoundCleared(0, count, round)
  {
  }

  /** The number of spawn ticks that still add an enemy, from `count` on, in this round. */
  function WaveSize(round: nat, count: nat): nat
    decreases if count < SpawnCap(round) then SpawnCap(round) - count else 0
  {
    match WaveSpawn(round, count)
    case None => 0
    case Some(s) => 1 + WaveSize(round, count + s.step)
  }

  /** In a round whose every spawn advances the counter by one, a wave has exactly limit - count enemies. */
  lemma {:induction false} UnitWaveSize(round: nat, count: nat)
    requires 1 <= round <= 31 || 41 <= round <= 44 || 46 <= round <= 49
    requires count <= EnemyLimit(round)
    ensures WaveSize(round, count) == EnemyLimit(round) - count
    decreases EnemyLimit(round) - count
  {
    if count < EnemyLimit(round) {
      UnitWaveSize(round, count + 1);
    }
  }

  /** Round 32 spawns exactly four bosses, although its enemy limit is 240. */
  lemma BossRoundSize()
    ensures EnemyLimit(32) == 240
    ensures WaveSize(32, 0) == 4
  {
    assert WaveSize(32, 320) == 0;
    assert WaveSize(32, 240) == 1;
    assert WaveSize(32, 160) == 2;
    assert WaveSize(32, 80) == 3;
  }
}
