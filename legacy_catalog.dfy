/**
 * The archetype catalogs of app/Spawn.tsx, the older game component: its ENEMY_TYPES (ten
 * archetypes, a subset of the newer catalog's keys with different numbers) and its TOWER_TYPES
 * (every tower kind but the cannon), and its createNewEnemy / createNewTower.
 *
 * The older records lack several fields of the shared Enemy and Tower records (maximum health,
 * armour, stun, spawning, the upgrade paths, critical hits, chains, lingering zones); a record
 * made here holds neutral values there, which the older code never reads.
 */
module LegacyCatalog {
  import opened Entities

  /** The keys of the older ENEMY_TYPES. */
  predicate Listed(k: EnemyKind) {
    k.BasicEnemy? || k.StealthEnemy? || k.TankEnemy? || k.SpeedyEnemy? || k.StealthyTank? ||
    k.StealthySpeedy? || k.RegenTank? || k.SpeedyRegenTank? || k.Boss? || k.UltraTanks?
  }

  /** `keyof typeof ENEMY_TYPES`. */
  type Breed = k: EnemyKind | Listed(k) witness BasicEnemy

  /** `keyof typeof TOWER_TYPES`: the older catalog has no cannon. */
  type Model = k: TowerKind | k != Cannon witness BasicTower

  /** One entry of the older ENEMY_TYPES, without its sprite; nothing in it is armoured or spawns. */
  function BreedStats(k: Breed): (s: EnemyStats)
    ensures s.hp > 0.0 && s.speed > 0.0 && s.damage > 0.0
    ensures s.canRegen <==> s.regen > 0.0
    ensures !s.isArmored && !s.canSpawn
  {
    match k
    case BasicEnemy => EnemyStats(100.0, 5.0, "basic", 0.225, 0.0, false, false, false)
    case StealthEnemy => EnemyStats(50.0, 10.0, "stealth", 0.225, 0.0, false, false, false)
    case TankEnemy => EnemyStats(350.0, 5.0, "basic", 0.1875, 0.0, false, false, false)
    case SpeedyEnemy => EnemyStats(50.0, 35.0, "speedy", 1.5, 0.0, false, false, false)
    case StealthyTank => EnemyStats(250.0, 20.0, "stealthytank", 0.1875, 0.0, false, false, false)
    case StealthySpeedy => EnemyStats(50.0, 50.0, "stealthyspeedy", 1.5, 0.0, false, false, false)
    case RegenTank => EnemyStats(400.0, 50.0, "regentank", 0.1875, 100.0, true, false, false)
    case SpeedyRegenTank => EnemyStats(500.0, 50.0, "speedyregentank", 0.35, 150.0, true, false, false)
    case Boss => EnemyStats(40000.0, 1000.0, "boss", 0.175, 1200.0, true, false, false)
    case UltraTanks => EnemyStats(1500.0, 1000.0, "ultratank", 0.15, 0.0, false, false, false)
  }

  /** Where the older path starts: two units above the newer one. */
  const StartX: real := -6.0
  const StartY: real := 54.0

  /** createNewEnemy: an archetype at the path start, at full speed, untargeted, unslowed, unpoisoned. */
  function Recruit(k: Breed, id: nat): (e: Enemy)
    ensures e.id == id && e.kind == BreedStats(k).kind && e.damage == BreedStats(k).damage
    ensures e.x == StartX && e.y == StartY
    ensures e.hp == BreedStats(k).hp > 0.0
    ensures e.speed == e.baseSpeed == BreedStats(k).speed
    ensures !e.isTargeted && !e.isSlowed && !e.isPoisoned
    ensures e.canRegen <==> e.regen > 0.0
  {
    var s := BreedStats(k);
    Enemy(id, StartX, StartY, s.hp, s.hp, s.speed, s.speed,
          false, None, None, None,
          s.damage, s.kind, s.regen, false,
          false, None, None,
          s.canRegen, false,
          false, None, None,
          false)
  }

  /** createNewTower: a catalog entry placed at the site, idle, targeting "first", with nothing done yet. */
  function Erect(k: Model, id: nat, x: real, y: real): (t: Tower)
    ensures t.id == id && t.x == x && t.y == y
    ensures t.damageDone == 0.0 && t.targets.None? && !t.isAttacking && t.targeting == First
    ensures t.path1Level == 0 && t.path2Level == 0 && t.path == 0
    ensures t.price > 0.0 && t.towerWorth == t.price
    ensures 0.0 < t.attack <= t.maxDamage && t.attackInterval == t.baseAttackInterval
    ensures 0.0 < t.maxAttackInterval < t.attackInterval
    ensures 0.0 <= t.poisonDamage <= t.maxPoisonDamage
    ensures !t.hasSpecialUpgrade && !t.canStopRegen
    ensures t.maxSlow.Some? <==> k == Slower
    ensures t.maxSlow.Some? ==> t.slowAmount.Some? && t.slowAmount.value >= t.maxSlow.value > 0.0
  {
    var b := Blank(id, x, y);
    match k
    case BasicTower =>
      b.(baseAttack := 40.0, attack := 40.0, baseAttackInterval := 1000.0, attackInterval := 1000.0,
         price := 100.0, towerWorth := 100.0, kind := "basic", maxDamage := 200.0,
         maxAttackInterval := 450.0, radius := 27.0, attackType := Single)
    case Sniper =>
      b.(baseAttack := 120.0, attack := 120.0, baseAttackInterval := 2000.0, attackInterval := 2000.0,
         price := 200.0, towerWorth := 200.0, kind := "sniper", maxDamage := 500.0,
         maxAttackInterval := 1000.0, radius := 120.0, attackType := Single, canHitStealth := true)
    case RapidShooter =>
      b.(baseAttack := 20.0, attack := 20.0, baseAttackInterval := 350.0, attackInterval := 350.0,
         price := 500.0, towerWorth := 500.0, kind := "rapidShooter", maxDamage := 75.0,
         maxAttackInterval := 200.0, radius := 27.0, attackType := Double)
    case Slower =>
      b.(baseAttack := 10.0, attack := 10.0, baseAttackInterval := 1000.0, attackInterval := 1000.0,
         price := 300.0, towerWorth := 300.0, kind := "slower", maxDamage := 10.0,
         maxAttackInterval := 700.0, radius := 27.0, attackType := Double,
         slowAmount := Some(0.75), maxSlow := Some(0.5))
    case GasSpitter =>
      b.(baseAttack := 20.0, attack := 20.0, baseAttackInterval := 1000.0, attackInterval := 1000.0,
         price := 300.0, towerWorth := 300.0, kind := "gasspitter", maxDamage := 20.0,
         maxAttackInterval := 600.0, radius := 27.0, attackType := Double,
         poisonDamage := 20.0, maxPoisonDamage := 100.0)
    case Mortar =>
      b.(baseAttack := 50.0, attack := 50.0, baseAttackInterval := 7000.0, attackInterval := 7000.0,
         price := 1200.0, towerWorth := 1200.0, kind := "mortar", maxDamage := 250.0,
         maxAttackInterval := 4500.0, radius := 40.0, attackType := Explosion, explosionRadius := 20.0)
  }
}
