/**
 * The two-path upgrade system of app/GameLogic.tsx: the TOWER_UPGRADES catalogue, with every
 * `effect` closure written as a record of stat changes, the menu's available-upgrade filter,
 * and performUpgrade, which spreads an effect over a tower and advances its path levels.
 */
module Upgrades {
  import opened Entities

  /** How an effect changes one numeric stat, always computed from the tower before the upgrade. */
  datatype Num = Same | Plus(d: real) | Times(f: real) | To(v: real)

  function Adjust(n: Num, v: real): real {
    match n
    case Same => v
    case Plus(d) => v + d
    case Times(f) => v * f
    case To(w) => w
  }

  /** `slowAmount: tower.slowAmount ? tower.slowAmount * f : f` (Scale), or a plain value (SetTo). */
  datatype SlowChange = KeepSlow | Scale(f: real) | SetTo(v: real)

  function AdjustSlow(c: SlowChange, s: Option<real>): Option<real> {
    match c
    case KeepSlow => s
    case Scale(f) => if Truthy(s) then Some(s.value * f) else Some(f)
    case SetTo(v) => Some(v)
  }

  /** The stat a lingering-damage upgrade scales: the old attack or the old poison damage. */
  datatype LingerBase = FromAttack | FromPoison

  /** The lingering zone an effect configures: damage = factor * base stat, radius, duration. */
  datatype LingerSpec = LingerSpec(base: LingerBase, factor: real, radius: real, duration: real)

  /**
   * One `effect` closure as data. The boolean flags are the capabilities an effect switches on
   * (no effect switches one off); `worth` is what the effect adds to towerWorth.
   */
  datatype Delta = Delta(
    attack: Num, attackInterval: Num, radius: Num, explosionRadius: Num, poisonDamage: Num,
    slowAmount: SlowChange, slowDuration: Option<real>,
    attackType: Option<AttackType>,
    canHitStealth: bool, canHitArmored: bool, canStun: bool, hasCritical: bool, canStopRegen: bool,
    stunDuration: Option<real>, criticalChance: Option<real>, criticalMultiplier: Option<real>,
    chainCount: Option<int>, chainRange: Option<real>,
    lingering: Option<LingerSpec>,
    worth: real)

  /** The effect that changes nothing; every catalogue entry is this with a few fields replaced. */
  const Keep := Delta(Same, Same, Same, Same, Same, KeepSlow, None, None,
                      false, false, false, false, false, None, None, None, None, None, None, 0.0)

  /** A TOWER_UPGRADES entry without its description and sprite; `tier` is its `requires` level. */
  datatype Upgrade = Upgrade(name: string, cost: real, tier: int, path: int, delta: Delta)

  /** One catalogue entry before its place in the list is known: name, cost and effect. */
  datatype Rung = Rung(name: string, cost: real, delta: Delta)

  /** The shape of every catalogue list: five tiers of path 1, then five tiers of path 2. */
  predicate Tiered(ups: seq<Upgrade>) {
    |ups| == 10 &&
    forall i :: 0 <= i < 10 ==> ups[i].path == (if i < 5 then 1 else 2) && ups[i].tier == i % 5
  }

  /**
   * A catalogue list: the path-1 entries with `requires` 0..4 in order, then the path-2 entries
   * with `requires` 0..4 (every TOWER_UPGRADES list is written in this order).
   */
  function Ladder(p1: seq<Rung>, p2: seq<Rung>): (r: seq<Upgrade>)
    requires |p1| == 5 && |p2| == 5
    ensures Tiered(r)
    ensures forall i :: 0 <= i < 5 ==> r[i].name == p1[i].name && r[i].cost == p1[i].cost && r[i].delta == p1[i].delta
    ensures forall i :: 0 <= i < 5 ==>
              r[i + 5].name == p2[i].name && r[i + 5].cost == p2[i].cost && r[i + 5].delta == p2[i].delta
  {
    seq(10, i requires 0 <= i < 10 =>
      var g := if i < 5 then p1[i] else p2[i - 5];
      Upgrade(g.name, g.cost, i % 5, if i < 5 then 1 else 2, g.delta))
  }

  function Pick<T>(o: Option<T>, v: T): T { if o.Some? then o.value else v }

  /** An optional field the effect may set: its new value if it names one, else the old one. */
  function Newer<T>(o: Option<T>, prev: Option<T>): Option<T> { if o.Some? then o else prev }

  /** A capability flag an effect may switch on. */
  function Enable(on: bool, b: bool): bool { b || on }

  /** The fields no effect touches: identity, placement, attack state, type, price and levels. */
  predicate Untouched(r: Tower, t: Tower) {
    r.id == t.id && r.x == t.x && r.y == t.y && r.isAttacking == t.isAttacking &&
    r.targets == t.targets && r.damageDone == t.damageDone &&
    r.kind == t.kind && r.targeting == t.targeting && r.price == t.price &&
    r.path1Level == t.path1Level && r.path2Level == t.path2Level && r.path == t.path
  }

  /** The numeric part of an effect, and its towerWorth increment. */
  function Retuned(d: Delta, t: Tower): (r: Tower)
    ensures Untouched(r, t) && r.towerWorth == t.towerWorth + d.worth
  {
    t.(attack := Adjust(d.attack, t.attack),
       attackInterval := Adjust(d.attackInterval, t.attackInterval),
       radius := Adjust(d.radius, t.radius),
       explosionRadius := Adjust(d.explosionRadius, t.explosionRadius),
       poisonDamage := Adjust(d.poisonDamage, t.poisonDamage),
       slowAmount := AdjustSlow(d.slowAmount, t.slowAmount),
       slowDuration := Newer(d.slowDuration, t.slowDuration),
       towerWorth := t.towerWorth + d.worth)
  }

  /** The capability part of an effect: attack type, switched-on flags, stun, critical and chain settings. */
  function Equipped(d: Delta, t: Tower): (r: Tower)
    ensures Untouched(r, t) && r.towerWorth == t.towerWorth
  {
    t.(attackType := Pick(d.attackType, t.attackType),
       canHitStealth := Enable(d.canHitStealth, t.canHitStealth),
       canHitArmored := Enable(d.canHitArmored, t.canHitArmored),
       canStun := Enable(d.canStun, t.canStun),
       hasCritical := Enable(d.hasCritical, t.hasCritical),
       canStopRegen := Enable(d.canStopRegen, t.canStopRegen),
       stunDuration := Newer(d.stunDuration, t.stunDuration),
       criticalChance := Newer(d.criticalChance, t.criticalChance),
       criticalMultiplier := Newer(d.criticalMultiplier, t.criticalMultiplier),
       chainCount := Newer(d.chainCount, t.chainCount),
       chainRange := Newer(d.chainRange, t.chainRange))
  }

  /** The lingering-zone part of an effect; its damage scales a stat of the tower before the upgrade. */
  function Lingers(d: Delta, before: Tower, t: Tower): (r: Tower)
    ensures Untouched(r, t) && r.towerWorth == t.towerWorth
  {
    match d.lingering
    case None => t
    case Some(z) =>
      t.(lingeringDamage := Some(z.factor * (if z.base == FromAttack then before.attack else before.poisonDamage)),
         lingeringRadius := Some(z.radius),
         lingeringDuration := Some(z.duration))
  }

  /**
   * `{...t, ...effect(t)}`: every stat the effect names is replaced (computed from `t`), every
   * other field is kept.
   */
  function Effect(d: Delta, t: Tower): (r: Tower)
    ensures Untouched(r, t)
    ensures r.towerWorth == t.towerWorth + d.worth
  {
    Lingers(d, t, Equipped(d, Retuned(d, t)))
  }

  /** TOWER_UPGRADES.basic: path 1 attack speed, path 2 heavy damage. */
  function BasicUpgrades(): seq<Upgrade> {
    Ladder(
      [Rung("Stealth Detection", 400.0, Keep.(canHitStealth := true, worth := 400.0)),
       Rung("Rapid Fire", 800.0, Keep.(attackInterval := Plus(-300.0), worth := 800.0)),
       Rung("Double Shot", 2000.0, Keep.(attackType := Some(Double), attackInterval := Plus(-200.0), worth := 2000.0)),
       Rung("Speed Master", 15000.0, Keep.(attackInterval := Plus(-250.0), attackType := Some(Triple), attack := Times(1.5), worth := 15000.0)),
       Rung("Hypersonic Barrage", 25000.0, Keep.(attackInterval := Plus(-100.0), attackType := Some(Quadruple), attack := Times(1.8), worth := 25000.0))],
      [Rung("Enhanced Targeting", 600.0, Keep.(attack := Plus(60.0), worth := 600.0)),
       Rung("Heavy Shells", 2000.0, Keep.(attack := Plus(80.0), canHitArmored := true, worth := 2000.0)),
       Rung("Critical Strike", 5000.0, Keep.(hasCritical := true, criticalChance := Some(0.30), criticalMultiplier := Some(3.0), worth := 5000.0)),
       Rung("Demolition Expert", 15000.0, Keep.(attackType := Some(Explosion), explosionRadius := To(25.0), attack := Times(3.0), worth := 15000.0)),
       Rung("Nuclear Strike", 30000.0, Keep.(explosionRadius := Times(1.4), attack := Times(1.5), worth := 30000.0))])
  }

  /** TOWER_UPGRADES.sniper: path 1 damage and stun, path 2 attack speed. */
  function SniperUpgrades(): seq<Upgrade> {
    Ladder(
      [Rung("Precision Scope", 1000.0, Keep.(attack := Plus(100.0), worth := 1000.0)),
       Rung("Stun Rounds", 2500.0, Keep.(canStun := true, stunDuration := Some(75.0), criticalChance := Some(0.2), worth := 2500.0)),
       Rung("Armor Piercing", 5000.0, Keep.(canHitArmored := true, attack := Plus(150.0), worth := 5000.0)),
       Rung("Heavy Impact", 12000.0, Keep.(attack := Times(2.0), criticalChance := Some(0.4), stunDuration := Some(150.0), worth := 12000.0)),
       Rung("Ultimate Destroyer", 25000.0, Keep.(attack := Times(3.0), criticalChance := Some(1.0), stunDuration := Some(250.0), worth := 25000.0))],
      [Rung("Quick Loader", 800.0, Keep.(attackInterval := Plus(-400.0), worth := 800.0)),
       Rung("Double Shot", 2000.0, Keep.(attackType := Some(Double), attackInterval := Plus(-200.0), worth := 2000.0)),
       Rung("Advanced Targeting", 4500.0, Keep.(attackType := Some(Triple), attackInterval := Plus(-300.0), worth := 4500.0)),
       Rung("Rapid Fire Master", 15000.0, Keep.(attackInterval := Plus(-500.0), attack := Times(1.3), worth := 15000.0)),
       Rung("Machine Gun Mode", 25000.0, Keep.(attackType := Some(Quadruple), attackInterval := Plus(-350.0), attack := Times(1.5), worth := 25000.0))])
  }

  /** TOWER_UPGRADES.rapidShooter: path 1 multi-target speed, path 2 chain lightning. */
  function RapidShooterUpgrades(): seq<Upgrade> {
    Ladder(
      [Rung("Faster Firing", 500.0, Keep.(attackInterval := Plus(-75.0), worth := 500.0)),
       Rung("Enhanced Targeting", 1200.0, Keep.(attack := Plus(15.0), attackInterval := Plus(-50.0), worth := 1200.0)),
       Rung("Triple Shot", 3500.0, Keep.(attackType := Some(Triple), attackInterval := Plus(-25.0), worth := 3500.0)),
       Rung("Quad Shot", 8000.0, Keep.(attackType := Some(Quadruple), attackInterval := Plus(-50.0), attack := Plus(10.0), worth := 8000.0)),
       Rung("Bullet Storm", 25000.0, Keep.(attackInterval := Plus(-65.0), attack := Times(1.6), worth := 25000.0))],
      [Rung("Static Charge", 800.0, Keep.(attack := Plus(25.0), radius := Times(1.1), worth := 800.0)),
       Rung("Enhanced Range", 1500.0, Keep.(radius := Times(1.2), attack := Plus(15.0), canHitStealth := true, worth := 1500.0)),
       Rung("Chain Lightning", 4500.0, Keep.(attackType := Some(Chain), chainCount := Some(2), chainRange := Some(20.0),
                   attack := Plus(20.0), worth := 4500.0)),
       Rung("Storm Caller", 12000.0, Keep.(chainCount := Some(3), chainRange := Some(25.0), attack := Times(1.4),
                   attackInterval := Plus(-25.0), worth := 12000.0)),
       Rung("Lightning Master", 25000.0, Keep.(chainCount := Some(4), chainRange := Some(30.0), attack := Times(2.0),
                   attackInterval := Plus(-50.0), worth := 25000.0))])
  }

  /** TOWER_UPGRADES.slower: path 1 time warping, path 2 multi-target freezing. */
  function SlowerUpgrades(): seq<Upgrade> {
    Ladder(
      [Rung("Enhanced Slow", 400.0, Keep.(slowAmount := Scale(0.9), worth := 400.0)),
       Rung("Time Distortion", 1500.0, Keep.(slowAmount := Scale(0.8), slowDuration := Some(3000.0), worth := 1500.0)),
       Rung("Temporal Field", 3500.0, Keep.(attackType := Some(Explosion), explosionRadius := To(15.0), slowAmount := Scale(0.7), worth := 3500.0)),
       Rung("Chrono Break", 8000.0, Keep.(explosionRadius := To(20.0), slowAmount := Scale(0.6), slowDuration := Some(4000.0), worth := 8000.0)),
       Rung("Time Lord", 20000.0, Keep.(explosionRadius := To(25.0), slowAmount := Scale(0.6), canHitStealth := true, worth := 20000.0))],
      [Rung("Frost Touch", 600.0, Keep.(attack := Plus(15.0), worth := 600.0)),
       Rung("Frost Touch 2", 1200.0, Keep.(attackInterval := Plus(-250.0), worth := 600.0)),
       Rung("Arctic Wind", 4500.0, Keep.(attackType := Some(Triple), radius := Times(1.3), attack := Plus(25.0), worth := 4500.0)),
       Rung("Deep Freeze", 12000.0, Keep.(attackType := Some(Quadruple), canStun := true, stunDuration := Some(100.0),
                   attack := Plus(30.0), worth := 12000.0)),
       Rung("Permafrost", 20000.0, Keep.(attack := Times(2.0), stunDuration := Some(250.0), radius := Times(1.5), worth := 20000.0))])
  }

  /** TOWER_UPGRADES.gasspitter: path 1 damage over time, path 2 gas cloud. */
  function GasSpitterUpgrades(): seq<Upgrade> {
    Ladder(
      [Rung("Virulent Strain", 400.0, Keep.(poisonDamage := Plus(25.0), worth := 400.0)),
       Rung("Lingering Toxin", 1200.0, Keep.(poisonDamage := Plus(30.0), worth := 1200.0)),
       Rung("Acid Pools", 3000.0, Keep.(attackType := Some(Lingering), lingering := Some(LingerSpec(FromPoison, 0.05, 15.0, 2000.0)),
                   worth := 3000.0)),
       Rung("Toxic Catalyst", 8000.0, Keep.(poisonDamage := Times(2.5), canHitStealth := true, canStopRegen := true, worth := 8000.0)),
       Rung("Bio Weaponry", 15000.0, Keep.(poisonDamage := Times(3.0), attack := Times(1.5), worth := 15000.0))],
      [Rung("Wider Spray", 600.0, Keep.(radius := Times(1.2), worth := 600.0)),
       Rung("Faster Attack", 2000.0, Keep.(attackInterval := Plus(-200.0), radius := Times(1.2), worth := 2000.0)),
       Rung("Gas Cloud", 4500.0, Keep.(attackType := Some(Explosion), explosionRadius := To(20.0), poisonDamage := Plus(20.0), worth := 4500.0)),
       Rung("Dense Vapors", 12000.0, Keep.(explosionRadius := To(25.0), slowAmount := SetTo(0.8), slowDuration := Some(2000.0),
                   poisonDamage := Plus(30.0), worth := 12000.0)),
       Rung("Chemical Warfare", 20000.0, Keep.(explosionRadius := To(30.0), slowAmount := SetTo(0.7), poisonDamage := Times(1.5), worth := 20000.0))])
  }

  /** TOWER_UPGRADES.mortar: path 1 raw power, path 2 crowd control. */
  function MortarUpgrades(): seq<Upgrade> {
    Ladder(
      [Rung("High Explosive Shells", 800.0, Keep.(attack := Plus(100.0), explosionRadius := Times(1.1), worth := 800.0)),
       Rung("Heavy Ordnance", 2000.0, Keep.(explosionRadius := Times(1.2), attack := Times(1.3), worth := 2000.0)),
       Rung("Concentrated Blast", 4500.0, Keep.(attack := Times(1.5), canHitArmored := true, worth := 4500.0)),
       Rung("Napalm Shells", 8000.0, Keep.(attack := Times(1.75), explosionRadius := Times(1.3), canHitStealth := true, worth := 8000.0)),
       Rung("Nuclear Artillery", 30000.0, Keep.(attack := Times(2.5), explosionRadius := Times(1.4), attackInterval := Times(1.5),
                   criticalChance := Some(0.3), criticalMultiplier := Some(2.0), worth := 30000.0))],
      [Rung("EMP Shells", 1000.0, Keep.(canStun := true, stunDuration := Some(100.0), explosionRadius := Times(1.1), worth := 1000.0)),
       Rung("Cryogenic Payload", 2500.0, Keep.(slowAmount := SetTo(0.7), slowDuration := Some(2000.0), explosionRadius := Times(1.2), worth := 2500.0)),
       Rung("Shockwave Artillery", 5000.0, Keep.(explosionRadius := Times(1.3), stunDuration := Some(300.0), slowAmount := SetTo(0.6),
                   attack := Plus(50.0), worth := 5000.0)),
       Rung("Shock and Awe", 12000.0, Keep.(explosionRadius := Times(1.4), slowAmount := SetTo(0.5), slowDuration := Some(3000.0),
                   stunDuration := Some(400.0), attack := Plus(100.0), worth := 12000.0)),
       Rung("Strategic Command", 25000.0, Keep.(explosionRadius := Times(1.5), attack := Times(1.5), slowAmount := SetTo(0.4),
                   slowDuration := Some(4000.0), canHitStealth := true, worth := 20000.0))])
  }

  /** TOWER_UPGRADES.cannon: path 1 anti-tank, path 2 anti-group with burning zones. */
  function CannonUpgrades(): seq<Upgrade> {
    Ladder(
      [Rung("Reinforced Barrel", 800.0, Keep.(attack := Plus(50.0), worth := 800.0)),
       Rung("Armor Piercing Rounds", 2000.0, Keep.(attack := Plus(75.0), hasCritical := true, criticalChance := Some(0.2),
                   criticalMultiplier := Some(2.0), worth := 2000.0)),
       Rung("Depleted Uranium", 4500.0, Keep.(attack := Times(1.5), criticalChance := Some(0.3), criticalMultiplier := Some(2.5), worth := 4500.0)),
       Rung("Tank Hunter", 8000.0, Keep.(attack := Times(1.75), criticalChance := Some(0.4), criticalMultiplier := Some(3.0),
                   attackInterval := Plus(-500.0), worth := 8000.0)),
       Rung("Siege Breaker", 25000.0, Keep.(attack := Times(1.5), criticalChance := Some(0.5), criticalMultiplier := Some(4.0),
                   canHitStealth := true, worth := 25000.0))],
      [Rung("Wide Shells", 1000.0, Keep.(explosionRadius := Times(1.2), attack := Plus(-15.0), worth := 1000.0)),
       Rung("Cluster Bombs", 2500.0, Keep.(explosionRadius := Times(1.3), attackInterval := Plus(-125.0), attack := Plus(15.0), worth := 2500.0)),
       Rung("Inferno Zone", 5000.0, Keep.(lingering := Some(LingerSpec(FromAttack, 0.05, 20.0, 4000.0)), attack := Plus(75.0),
                   explosionRadius := Times(1.3), worth := 5000.0)),
       Rung("Hellfire Cannon", 12000.0, Keep.(lingering := Some(LingerSpec(FromAttack, 0.15, 25.0, 5000.0)), attack := Times(1.4),
                   explosionRadius := Times(1.4), worth := 12000.0)),
       Rung("Solar Inferno", 20000.0, Keep.(lingering := Some(LingerSpec(FromAttack, 0.2, 30.0, 6000.0)), attack := Times(1.6),
                   explosionRadius := Times(1.5), canHitArmored := true, worth := 20000.0))])
  }

  /** `TOWER_UPGRADES[type]`: absent for a type the catalogue does not know. */
  function Catalog(kind: string): (r: Option<seq<Upgrade>>)
    ensures r.Some? ==> Tiered(r.value)
  {
    if kind == "basic" then Some(BasicUpgrades())
    else if kind == "sniper" then Some(SniperUpgrades())
    else if kind == "rapidShooter" then Some(RapidShooterUpgrades())
    else if kind == "slower" then Some(SlowerUpgrades())
    else if kind == "gasspitter" then Some(GasSpitterUpgrades())
    else if kind == "mortar" then Some(MortarUpgrades())
    else if kind == "cannon" then Some(CannonUpgrades())
    else None
  }

  /**
   * The menu's filter: once a path is chosen (a level of 3 or more), the other path offers only
   * its first two tiers; otherwise each path offers the tier matching its current level.
   */
  predicate Offered(t: Tower, u: Upgrade) {
    var chosen := t.path1Level >= 3 || t.path2Level >= 3;
    if chosen && t.path1Level >= 3 then
      (u.path == 2 && u.tier < 2 && u.tier == t.path2Level) ||
      (u.path == 1 && u.tier == t.path1Level)
    else if chosen then
      (u.path == 1 && u.tier < 2 && u.tier == t.path1Level) ||
      (u.path == 2 && u.tier == t.path2Level)
    else
      (u.path == 1 && u.tier == t.path1Level) || (u.path == 2 && u.tier == t.path2Level)
  }

  function Filter(t: Tower, ups: seq<Upgrade>): (r: seq<Upgrade>)
    ensures |r| <= |ups|
    ensures forall u :: u in r <==> u in ups && Offered(t, u)
  {
    if ups == [] then []
    else (if Offered(t, ups[0]) then [ups[0]] else []) + Filter(t, ups[1..])
  }

  /** `TOWER_UPGRADES[type]?.filter(...) || []`: the upgrades the menu lists for a tower. */
  function Available(t: Tower): (r: seq<Upgrade>)
    ensures Catalog(t.kind).None? ==> r == []
    ensures forall u :: u in r <==> Catalog(t.kind).Some? && u in Catalog(t.kind).value && Offered(t, u)
  {
    if Catalog(t.kind).Some? then Filter(t, Catalog(t.kind).value) else []
  }

  /**
   * performUpgrade's tower update: the effect applied to the tower, the upgrade's path one level
   * up, and `path` set to that path the first time one of the levels reaches 3.
   */
  function Upgraded(t: Tower, u: Upgrade): (r: Tower)
    ensures r.path1Level == t.path1Level + (if u.path == 1 then 1 else 0)
    ensures r.path2Level == t.path2Level + (if u.path == 2 then 1 else 0)
    ensures t.path != 0 ==> r.path == t.path
    ensures t.path == 0 ==> r.path == (if r.path1Level == 3 then 1 else if r.path2Level == 3 then 2 else 0)
    ensures r.id == t.id && r.x == t.x && r.y == t.y && r.isAttacking == t.isAttacking &&
            r.targets == t.targets && r.damageDone == t.damageDone
    ensures r.kind == t.kind && r.targeting == t.targeting && r.price == t.price
    ensures r.towerWorth == t.towerWorth + u.delta.worth
  {
    var p1 := if u.path == 1 then t.path1Level + 1 else t.path1Level;
    var p2 := if u.path == 2 then t.path2Level + 1 else t.path2Level;
    var np := if p1 == 3 && t.path == 0 then 1 else if p2 == 3 && t.path == 0 then 2 else t.path;
    Effect(u.delta, t).(path1Level := p1, path2Level := p2, path := np)
  }

  /**
   * The level bookkeeping the menu maintains: levels 0..5, never both paths at 3 or more, and
   * `path` naming the path that reached 3 (0 while neither has).
   */
  predicate Tiers(t: Tower) {
    0 <= t.path1Level <= 5 && 0 <= t.path2Level <= 5 &&
    !(t.path1Level >= 3 && t.path2Level >= 3) &&
    (t.path == 0 <==> t.path1Level < 3 && t.path2Level < 3) &&
    (t.path == 1 <==> t.path1Level >= 3) &&
    (t.path == 2 <==> t.path2Level >= 3)
  }

  /** A new tower starts with both levels at 0 and no path. */
  lemma NewTowerTiers(k: TowerKind, id: nat, x: real, y: real)
    ensures Tiers(NewTower(k, id, x, y))
  {
  }

  /** Buying an upgrade the filter offers from a tiered list keeps the level bookkeeping. */
  lemma OfferedKeepsTiers(t: Tower, ups: seq<Upgrade>, u: Upgrade)
    requires Tiers(t) && Tiered(ups)
    requires u in ups && Offered(t, u)
    ensures Tiers(Upgraded(t, u))
  {
    var i :| 0 <= i < |ups| && ups[i] == u;
    assert u.path == (if i < 5 then 1 else 2) && 0 <= u.tier <= 4;
  }

  /** Buying any upgrade the menu offers keeps the level bookkeeping: a chosen path locks the other at tier 2. */
  lemma UpgradeKeepsTiers(t: Tower, u: Upgrade)
    requires Tiers(t)
    requires u in Available(t)
    ensures Tiers(Upgraded(t, u))
  {
    OfferedKeepsTiers(t, Catalog(t.kind).value, u);
  }

  /** From a tiered list, a tower with no upgrades is offered exactly the first tier of each path. */
  lemma FreshOffers(t: Tower, ups: seq<Upgrade>)
    requires t.path1Level == 0 && t.path2Level == 0
    requires Tiered(ups)
    ensures forall u :: u in Filter(t, ups) <==> u == ups[0] || u == ups[5]
  {
    forall u ensures u in Filter(t, ups) <==> u == ups[0] || u == ups[5] {
      if u in ups && Offered(t, u) {
        var i :| 0 <= i < |ups| && ups[i] == u;
        assert i == 0 || i == 5;
      }
    }
  }

  /** A tower with no upgrades is offered exactly the two first tiers of its catalogue. */
  lemma FreshTowerOffers(t: Tower)
    requires t.path1Level == 0 && t.path2Level == 0
    requires Catalog(t.kind).Some?
    ensures var ups := Catalog(t.kind).value;
            forall u :: u in Available(t) <==> u == ups[0] || u == ups[5]
  {
    FreshOffers(t, Catalog(t.kind).value);
  }

  /** Once path 1 has reached level 3, no offered upgrade can take path 2 to level 3. */
  lemma ChosenPathLocksTheOther(t: Tower, u: Upgrade)
    requires t.path1Level >= 3
    requires u in Available(t)
    ensures Upgraded(t, u).path2Level <= 2 || Upgraded(t, u).path2Level == t.path2Level
  {
  }

  /**
   * Two catalogue entries add less to the tower's worth than they cost, so selling such a tower
   * refunds less than the other entries would: "Frost Touch 2" and "Strategic Command".
   */
  lemma UnderCreditedUpgrades()
    ensures var u := SlowerUpgrades()[6]; u.name == "Frost Touch 2" && u.cost == 1200.0 && u.delta.worth == 600.0
    ensures var u := MortarUpgrades()[9]; u.name == "Strategic Command" && u.cost == 25000.0 && u.delta.worth == 20000.0
  {
  }
}
