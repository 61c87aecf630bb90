/**
 * The records the tower-defense engine keeps (app/GameLogic.tsx, interfaces Enemy, Tower,
 * LingeringEffect) and the compiled-in archetype catalogs ENEMY_TYPES and TOWER_TYPES.
 *
 * JavaScript optional numbers become `Option<real>`; the three ways the source reads them are
 * `Or` (`x || d`), `Nullish` (`x ?? d`) and `Truthy` (`if (x)`). Identifiers (uuids in the
 * source) are natural numbers handed out by the game state.
 */
module Entities {

  datatype Option<T> = None | Some(value: T)

  function Min(a: real, b: real): real { if a <= b then a else b }
  function Max(a: real, b: real): real { if a >= b then a else b }

  /** `x || d` on an optional number: both undefined and 0 fall back to `d`. */
  function Or(x: Option<real>, d: real): real { if x.Some? && x.value != 0.0 then x.value else d }

  /** `x || d` on an optional whole number. */
  function OrInt(x: Option<int>, d: int): int { if x.Some? && x.value != 0 then x.value else d }

  /** `x ?? d`: only undefined falls back to `d`. */
  function Nullish(x: Option<real>, d: real): real { if x.Some? then x.value else d }

  /** `if (x)` on an optional number. */
  predicate Truthy(x: Option<real>) { x.Some? && x.value != 0.0 }

  /** `!t` on an optional timestamp is false only for a defined, non-zero time. */
  predicate Present(t: Option<int>) { t.Some? && t.value != 0 }

  /** `Math.sqrt(dx * dx + dy * dy) <= r`, stated without the square root. */
  predicate Within(px: real, py: real, qx: real, qy: real, r: real) {
    r >= 0.0 && (px - qx) * (px - qx) + (py - qy) * (py - qy) <= r * r
  }

  /** The attack types a tower can have (the source's `attackType` strings). */
  datatype AttackType = Single | Double | Triple | Quadruple | Explosion | Chain | Lingering

  /** The targeting modes (`targettingType`): "first", "highestHp", "last". */
  datatype Targeting = First | HighestHp | Last

  datatype Enemy = Enemy(
    id: nat,
    x: real, y: real,
    hp: real, maxHp: real,
    speed: real, baseSpeed: real,
    isSlowed: bool, slowValue: Option<real>, slowSourceId: Option<nat>, slowStartTime: Option<int>,
    damage: real,
    kind: string,
    regen: real,
    isTargeted: bool,
    isPoisoned: bool, poisonSourceId: Option<nat>, poisonStartTime: Option<int>,
    canRegen: bool,
    isArmored: bool,
    isStunned: bool, stunSourceId: Option<nat>, stunStartTime: Option<int>,
    canSpawn: bool)

  datatype Tower = Tower(
    id: nat,
    x: real, y: real,
    damageDone: real,
    baseAttackInterval: real, baseAttack: real,
    attack: real, attackInterval: real,
    targets: Option<seq<Enemy>>,
    isAttacking: bool,
    price: real, towerWorth: real,
    kind: string,
    targeting: Targeting,
    maxDamage: real, maxAttackInterval: real,
    radius: real,
    attackType: AttackType,
    canHitStealth: bool,
    slowAmount: Option<real>, maxSlow: Option<real>, slowDuration: Option<real>,
    poisonDamage: real, maxPoisonDamage: real,
    hasSpecialUpgrade: bool, specialUpgradeAvailable: bool,
    canStopRegen: bool,
    explosionRadius: real,
    upgradeLevel: nat,
    hasCritical: bool, criticalChance: Option<real>, criticalMultiplier: Option<real>,
    canHitArmored: bool,
    canStun: bool, stunDuration: Option<real>,
    chainCount: Option<int>, chainRange: Option<real>,
    hasLingering: bool,
    lingeringDamage: Option<real>, lingeringRadius: Option<real>, lingeringDuration: Option<real>,
    path1Level: int, path2Level: int, path: int)

  /** A lingering damage zone (LingeringEffect without its colour). */
  datatype Zone = Zone(id: nat, x: real, y: real, damage: real, radius: real, timestamp: int, duration: real)

  /** The keys of ENEMY_TYPES. */
  datatype EnemyKind =
    | BasicEnemy | StealthEnemy | TankEnemy | SpeedyEnemy | StealthyTank | StealthySpeedy
    | RegenTank | SpeedyRegenTank | Boss | UltraTanks | ArmoredBasic | ArmoredTank
    | ArmoredUltraTank | ArmoredSpeedyMegaTank | SpeedyMegaTank | MegaBoss | Spawner

  /** One ENEMY_TYPES entry, without its sprite. */
  datatype EnemyStats = EnemyStats(
    hp: real, damage: real, kind: string, speed: real, regen: real,
    canRegen: bool, isArmored: bool, canSpawn: bool)

  function StatsOf(k: EnemyKind): (s: EnemyStats)
    ensures s.hp > 0.0 && s.speed > 0.0 && s.damage > 0.0
    ensures s.canRegen <==> s.regen > 0.0
    ensures s.canSpawn <==> k == Spawner
  {
    match k
    case BasicEnemy => EnemyStats(100.0, 5.0, "basic", 0.225, 0.0, false, false, false)
    case StealthEnemy => EnemyStats(50.0, 10.0, "stealth", 0.225, 0.0, false, false, false)
    case TankEnemy => EnemyStats(350.0, 5.0, "basic", 0.1875, 0.0, false, false, false)
    case SpeedyEnemy => EnemyStats(40.0, 35.0, "speedy", 1.5, 0.0, false, false, false)
    case StealthyTank => EnemyStats(250.0, 20.0, "stealthytank", 0.1875, 0.0, false, false, false)
    case StealthySpeedy => EnemyStats(50.0, 50.0, "stealthyspeedy", 1.5, 0.0, false, false, false)
    case RegenTank => EnemyStats(400.0, 50.0, "regentank", 0.1875, 100.0, true, false, false)
    case SpeedyRegenTank => EnemyStats(600.0, 50.0, "speedyregentank", 0.35, 150.0, true, false, false)
    case Boss => EnemyStats(50000.0, 1000.0, "boss", 0.15, 1200.0, true, false, false)
    case UltraTanks => EnemyStats(1750.0, 1000.0, "ultratank", 0.15, 0.0, false, false, false)
    case ArmoredBasic => EnemyStats(125.0, 30.0, "armoredbasic", 0.2, 0.0, false, true, false)
    case ArmoredTank => EnemyStats(400.0, 400.0, "armoredtank", 0.175, 0.0, false, true, false)
    case ArmoredUltraTank => EnemyStats(2000.0, 1000.0, "armoredultratank", 0.2, 0.0, false, true, false)
    case ArmoredSpeedyMegaTank => EnemyStats(3500.0, 1000.0, "armoredultratank", 0.5, 0.0, false, true, false)
    case SpeedyMegaTank => EnemyStats(3000.0, 1000.0, "armoredultratank", 0.5, 0.0, false, true, false)
    case MegaBoss => EnemyStats(125000.0, 1000.0, "boss", 0.2, 5000.0, true, false, false)
    case Spawner => EnemyStats(2000.0, 100.0, "spawner", 0.2, 0.0, false, false, true)
  }

  /** The path origin where createNewEnemy places an enemy unless told otherwise. */
  const OriginX: real := -6.0
  const OriginY: real := 56.0

  /** createNewEnemy: an archetype's stats at full health, free of every status effect. */
  function NewEnemy(k: EnemyKind, id: nat, at: Option<(real, real)>): (e: Enemy)
    ensures e.id == id && e.kind == StatsOf(k).kind
    ensures e.hp == e.maxHp == StatsOf(k).hp && e.hp > 0.0
    ensures e.speed == e.baseSpeed > 0.0
    ensures !e.isSlowed && !e.isPoisoned && !e.isStunned && !e.isTargeted
    ensures at.None? ==> e.x == OriginX && e.y == OriginY
    ensures at.Some? ==> e.x == at.value.0 && e.y == at.value.1
  {
    var s := StatsOf(k);
    var (x, y) := if at.Some? then at.value else (OriginX, OriginY);
    Enemy(id, x, y, s.hp, s.hp, s.speed, s.speed,
          false, None, None, None,
          s.damage, s.kind, s.regen, false,
          false, None, None,
          s.canRegen, s.isArmored,
          false, None, None,
          s.canSpawn)
  }

  /** The keys of TOWER_TYPES. */
  datatype TowerKind = BasicTower | Sniper | RapidShooter | Slower | GasSpitter | Mortar | Cannon

  /** The fields every new tower shares before its archetype's entry is spread over them. */
  function Blank(id: nat, x: real, y: real): Tower {
    Tower(id, x, y, 0.0,
          0.0, 0.0, 0.0, 0.0,
          None, false, 0.0, 0.0,
          "", First, 0.0, 0.0, 0.0,
          Single, false,
          None, None, None,
          0.0, 0.0,
          false, false, false,
          0.0, 0,
          false, None, None,
          false, false, None,
          None, None,
          false, None, None, None,
          0, 0, 0)
  }

  /** createNewTower: an archetype's catalog entry, placed, idle, targeting "first", no upgrades. */
  function NewTower(k: TowerKind, id: nat, x: real, y: real): (t: Tower)
    ensures t.id == id && t.x == x && t.y == y
    ensures t.damageDone == 0.0 && t.targets.None? && !t.isAttacking && t.targeting == First
    ensures t.path1Level == 0 && t.path2Level == 0 && t.path == 0
    ensures t.price > 0.0 && t.towerWorth == t.price
    ensures t.attack > 0.0 && t.attackInterval > 0.0 && t.radius > 0.0
    ensures t.attack <= t.maxDamage && t.maxAttackInterval <= t.attackInterval
  {
    var b := Blank(id, x, y);
    match k
    case BasicTower =>
      b.(baseAttack := 50.0, attack := 50.0, baseAttackInterval := 1000.0, attackInterval := 1000.0,
         price := 100.0, towerWorth := 100.0, kind := "basic", maxDamage := 300.0,
         maxAttackInterval := 450.0, radius := 27.0, attackType := Single)
    case Sniper =>
      b.(baseAttack := 120.0, attack := 120.0, baseAttackInterval := 2000.0, attackInterval := 2000.0,
         price := 200.0, towerWorth := 200.0, kind := "sniper", maxDamage := 1500.0,
         maxAttackInterval := 1000.0, radius := 120.0, attackType := Single, canHitStealth := true)
    case RapidShooter =>
      b.(baseAttack := 20.0, attack := 20.0, baseAttackInterval := 350.0, attackInterval := 350.0,
         price := 500.0, towerWorth := 500.0, kind := "rapidShooter", maxDamage := 68.0,
         maxAttackInterval := 200.0, radius := 27.0, attackType := Double)
    case Slower =>
      b.(baseAttack := 10.0, attack := 10.0, baseAttackInterval := 1000.0, attackInterval := 1000.0,
         price := 300.0, towerWorth := 300.0, kind := "slower", maxDamage := 15.0,
         maxAttackInterval := 700.0, radius := 27.0, attackType := Double,
         slowAmount := Some(0.75), maxSlow := Some(0.5), slowDuration := Some(2000.0))
    case GasSpitter =>
      b.(baseAttack := 20.0, attack := 20.0, baseAttackInterval := 1000.0, attackInterval := 1000.0,
         price := 300.0, towerWorth := 300.0, kind := "gasspitter", maxDamage := 20.0,
         maxAttackInterval := 600.0, radius := 27.0, attackType := Double,
         poisonDamage := 20.0, maxPoisonDamage := 360.0)
    case Mortar =>
      b.(baseAttack := 1755.0, attack := 175.0, baseAttackInterval := 8500.0, attackInterval := 8500.0,
         price := 1200.0, towerWorth := 1200.0, kind := "mortar", maxDamage := 650.0,
         maxAttackInterval := 4500.0, radius := 60.0, attackType := Explosion,
         explosionRadius := 20.0, canHitArmored := true)
    case Cannon =>
      b.(baseAttack := 75.0, attack := 75.0, baseAttackInterval := 2750.0, attackInterval := 2750.0,
         price := 500.0, towerWorth := 500.0, kind := "cannon", maxDamage := 380.0,
         maxAttackInterval := 1000.0, radius := 27.0, attackType := Explosion,
         explosionRadius := 15.0, canHitArmored := true)
  }

  /** The enemy type tags that only stealth-capable towers may target. */
  predicate IsStealthy(e: Enemy) {
    e.kind == "stealth" || e.kind == "stealthytank" || e.kind == "stealthyspeedy"
  }

  /** The ids of a list of enemies, in order. */
  function Ids(es: seq<Enemy>): (ids: seq<nat>)
    ensures |ids| == |es|
    ensures forall i :: 0 <= i < |es| ==> ids[i] == es[i].id
  {
    if es == [] then [] else [es[0].id] + Ids(es[1..])
  }

  /** No two enemies of the pool share an id. */
  predicate DistinctIds(es: seq<Enemy>) {
    forall i, j :: 0 <= i < j < |es| ==> es[i].id != es[j].id
  }

  /** Every id in the pool was handed out before `next`. */
  predicate IdsBelow(es: seq<Enemy>, next: nat) {
    forall i :: 0 <= i < |es| ==> es[i].id < next
  }
}
