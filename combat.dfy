/**
 * Attack resolution of app/GameLogic.tsx (towerAttack): the critical-hit multiplier, the four
 * attack families (explosion, chain, lingering, single/multi), the stun, slow and poison effects
 * a hit applies, and the running damage totals the source accumulates while it maps the pool.
 *
 * Every per-enemy transform is a function returning a `Hit`: the enemy after the hit, the damage
 * the tower is credited with, and whether this hit is the one that killed it (the source then
 * calls grantMoneyForKill and, for spawners, adds five enemies).
 */
module Combat {
  import opened Entities

  datatype Hit = Hit(enemy: Enemy, dealt: real, killed: bool)

  /**
   * `tower.hasCritical && tower.criticalChance && Math.random() < tower.criticalChance`, with
   * `roll` the value `Math.random()` returned.
   */
  predicate CriticalRoll(t: Tower, roll: real) {
    t.hasCritical && Truthy(t.criticalChance) && roll < t.criticalChance.value
  }

  /** The damage multiplier: the critical multiplier (1 if unset) on a critical hit, 1 otherwise. */
  function Multiplier(t: Tower, critRoll: real): (m: real)
    ensures !CriticalRoll(t, critRoll) ==> m == 1.0
    ensures CriticalRoll(t, critRoll) ==> m == Or(t.criticalMultiplier, 1.0)
  {
    if CriticalRoll(t, critRoll) then Or(t.criticalMultiplier, 1.0) else 1.0
  }

  /**
   * The stun roll of a single/multi-target hit, `tower.canStun && Math.random() <
   * (tower.criticalChance || 0)`, with `roll` the value `Math.random()` returned for this enemy.
   */
  predicate StunRoll(t: Tower, roll: real) {
    t.canStun && roll < Or(t.criticalChance, 0.0)
  }

  /**
   * What the rolls can do, for draws in [0, 1) as `Math.random()` returns them: with no chance
   * set there is never a critical hit or a stun, and a chance of 1 or more always wins.
   */
  lemma RollOdds(t: Tower, roll: real)
    requires 0.0 <= roll < 1.0
    ensures !Truthy(t.criticalChance) ==> !CriticalRoll(t, roll) && !StunRoll(t, roll)
    ensures t.criticalChance.Some? && t.criticalChance.value <= 0.0 ==> !CriticalRoll(t, roll) && !StunRoll(t, roll)
    ensures t.hasCritical && t.criticalChance.Some? && t.criticalChance.value >= 1.0 ==> CriticalRoll(t, roll)
    ensures t.canStun && t.criticalChance.Some? && t.criticalChance.value >= 1.0 ==> StunRoll(t, roll)
  {
  }

  /** A stun: the enemy stops and remembers the stunning tower and the time. */
  function Stun(u: Enemy, t: Tower, now: int): Enemy {
    u.(isStunned := true, stunSourceId := Some(t.id), stunStartTime := Some(now), speed := 0.0)
  }

  /** Poison from a gas spitter; a tower with canStopRegen also switches regeneration off. */
  function Poison(u: Enemy, t: Tower, now: int): Enemy {
    u.(isPoisoned := true, poisonSourceId := Some(t.id), poisonStartTime := Some(now),
       canRegen := !t.canStopRegen)
  }

  /** The least fraction of base speed a single/multi-target slow leaves: 0.15 before round 30, then 0.4. */
  function SlowFloor(round: int): real {
    if round < 30 then 0.15 else 0.4
  }

  /** A slow takes effect on an unslowed enemy, or when it is stronger (smaller) than the current one. */
  predicate SlowApplies(u: Enemy, t: Tower) {
    Truthy(t.slowAmount) && (!u.isSlowed || t.slowAmount.value < Or(u.slowValue, 1.0))
  }

  /** The slow rule shared by the explosion and single/multi branches, with its speed floor. */
  function ApplySlow(u: Enemy, t: Tower, floor: real, now: int): (r: Enemy)
    ensures r.id == u.id && r.x == u.x && r.y == u.y && r.hp == u.hp && r.maxHp == u.maxHp
    ensures r.isArmored == u.isArmored && r.isStunned == u.isStunned && r.stunSourceId == u.stunSourceId
    ensures !SlowApplies(u, t) ==> r == u
    ensures SlowApplies(u, t) ==>
              r == u.(isSlowed := true, slowSourceId := Some(t.id), slowStartTime := Some(now),
                      slowValue := t.slowAmount, speed := r.speed)
    ensures SlowApplies(u, t) && u.isStunned ==> r.speed == 0.0
    ensures SlowApplies(u, t) && !u.isStunned ==>
              r.speed >= u.baseSpeed * t.slowAmount.value && r.speed >= u.baseSpeed * floor &&
              (r.speed == u.baseSpeed * t.slowAmount.value || r.speed == u.baseSpeed * floor)
  {
    if SlowApplies(u, t) then
      var s := t.slowAmount.value;
      u.(isSlowed := true, slowSourceId := Some(t.id), slowStartTime := Some(now), slowValue := Some(s),
         speed := if !u.isStunned then Max(u.baseSpeed * s, u.baseSpeed * floor) else 0.0)
    else u
  }

  /** A weaker (or equal) slow arriving after a stronger one leaves the enemy as it is. */
  lemma WeakerSlowDoesNotOverride(u: Enemy, t: Tower, t2: Tower, floor: real, now: int, later: int)
    requires SlowApplies(u, t) && Truthy(t2.slowAmount)
    requires t2.slowAmount.value >= t.slowAmount.value
    ensures ApplySlow(ApplySlow(u, t, floor, now), t2, floor, later) == ApplySlow(u, t, floor, now)
  {
    assert !SlowApplies(ApplySlow(u, t, floor, now), t2);
  }

  /**
   * The status effects of a single/multi-target hit, in the source's order: a stun when the
   * enemy's stun roll wins, the slow rule, then poison from a gas spitter.
   */
  function DirectEffects(t: Tower, stunRoll: real, round: int, now: int, e: Enemy): (r: Enemy)
    ensures r.id == e.id && r.x == e.x && r.y == e.y && r.hp == e.hp && r.maxHp == e.maxHp
    ensures r.isArmored == e.isArmored
    ensures t.kind == "gasspitter" ==>
              r.isPoisoned && r.poisonSourceId == Some(t.id) && r.canRegen == !t.canStopRegen
    ensures StunRoll(t, stunRoll) ==> r.isStunned && r.stunSourceId == Some(t.id) && r.speed == 0.0
    ensures !StunRoll(t, stunRoll) ==> r.isStunned == e.isStunned && r.stunSourceId == e.stunSourceId
  {
    var u1 := if StunRoll(t, stunRoll) then Stun(e, t, now) else e;
    var u2 := ApplySlow(u1, t, SlowFloor(round), now);
    if t.kind == "gasspitter" then Poison(u2, t, now) else u2
  }

  /** The health a single/multi-target hit leaves: armour the tower cannot pierce keeps it whole. */
  function DirectHp(t: Tower, e: Enemy, actual: real): real {
    if e.isArmored && !t.canHitArmored then e.hp else Max(e.hp - actual, 0.0)
  }

  /**
   * One enemy of the single/multi-target branch. Targets are matched by id; a stun needs the
   * ability and a winning roll (`stunRoll`, this enemy's draw); armour the tower cannot pierce
   * keeps the health but the damage is still credited to the tower.
   */
  function DirectHit(t: Tower, targets: set<nat>, mult: real, stunRoll: real, round: int, now: int,
                     e: Enemy): (h: Hit)
    ensures h.enemy.id == e.id && h.enemy.x == e.x && h.enemy.y == e.y && h.enemy.maxHp == e.maxHp
    ensures h.enemy.isArmored == e.isArmored
    ensures e.id !in targets ==> h == Hit(e, 0.0, false)
    ensures e.id in targets ==> h.dealt == Min(t.attack * mult, e.hp) && h.enemy.isTargeted
    ensures e.id in targets && e.isArmored && !t.canHitArmored ==> h.enemy.hp == e.hp
    ensures e.id in targets && !(e.isArmored && !t.canHitArmored) ==> h.enemy.hp == Max(e.hp - h.dealt, 0.0)
    ensures e.id in targets && e.hp >= 0.0 && t.attack * mult >= 0.0 ==> 0.0 <= h.enemy.hp <= e.hp
    ensures h.killed <==> e.id in targets && e.hp > 0.0 && h.enemy.hp <= 0.0
    ensures e.id in targets && t.kind == "gasspitter" ==>
              h.enemy.isPoisoned && h.enemy.poisonSourceId == Some(t.id) && h.enemy.canRegen == !t.canStopRegen
    ensures e.id in targets && StunRoll(t, stunRoll) ==>
              h.enemy.isStunned && h.enemy.stunSourceId == Some(t.id) && h.enemy.speed == 0.0
    ensures !StunRoll(t, stunRoll) ==> h.enemy.isStunned == e.isStunned && h.enemy.stunSourceId == e.stunSourceId
  {
    if e.id !in targets then Hit(e, 0.0, false)
    else
      var actual := Min(t.attack * mult, e.hp);
      var hp := DirectHp(t, e, actual);
      Hit(DirectEffects(t, stunRoll, round, now, e).(hp := hp, isTargeted := true), actual, hp <= 0.0 && e.hp > 0.0)
  }

  /** The ids of the living enemies, other than the primary, within the blast radius of the primary. */
  function BlastIds(pool: seq<Enemy>, primary: Enemy, radius: real): (ids: set<nat>)
    ensures primary.id !in ids
    ensures forall e :: (e in pool && e.hp > 0.0 && e.id != primary.id &&
                         Within(e.x, e.y, primary.x, primary.y, radius)) ==> e.id in ids
  {
    set e | e in pool && e.hp > 0.0 && e.id != primary.id && Within(e.x, e.y, primary.x, primary.y, radius) :: e.id
  }

  /** The effects an explosion applies after the damage: a stun when the tower can stun, then the slow rule. */
  function BlastEffects(t: Tower, now: int, u: Enemy): (r: Enemy)
    ensures r.id == u.id && r.x == u.x && r.y == u.y && r.hp == u.hp && r.maxHp == u.maxHp
    ensures r.isArmored == u.isArmored
    ensures t.canStun ==> r.isStunned && r.stunSourceId == Some(t.id) && r.speed == 0.0
  {
    var u1 := if t.canStun then Stun(u, t, now) else u;
    ApplySlow(u1, t, 0.4, now)
  }

  /**
   * An enemy caught in an explosion, hit for `damage`: the stored health always drops by the
   * credited damage, while the kill check treats armour the tower cannot pierce as unhurt. A
   * tower that pierces armour strips it.
   */
  function Detonate(t: Tower, damage: real, now: int, e: Enemy): (h: Hit)
    requires e.hp > 0.0
    ensures h.enemy.id == e.id && h.enemy.x == e.x && h.enemy.y == e.y && h.enemy.maxHp == e.maxHp
    ensures h.dealt == Min(damage, e.hp)
    ensures h.enemy.hp == e.hp - h.dealt && h.enemy.hp >= 0.0
    ensures h.killed <==> !(e.isArmored && !t.canHitArmored) && h.enemy.hp <= 0.0
    ensures h.enemy.isArmored <==> e.isArmored && !t.canHitArmored
    ensures t.canStun ==> h.enemy.isStunned && h.enemy.speed == 0.0
  {
    var actual := Min(damage, e.hp);
    var newHp := if e.isArmored && !t.canHitArmored then e.hp else Max(e.hp - actual, 0.0);
    var stillArmored := e.isArmored && !(t.canHitArmored && e.isArmored);
    Hit(BlastEffects(t, now, e.(hp := e.hp - actual, isArmored := stillArmored)), actual, newHp <= 0.0 && e.hp > 0.0)
  }

  /** The damage an explosion deals an enemy before the clamp: the attack, or a quarter of it off the primary. */
  function BlastDamage(t: Tower, primary: nat, mult: real, e: Enemy): (d: real)
    ensures e.id == primary ==> d == t.attack * mult
    ensures e.id != primary ==> d == t.attack * mult / 4.0
  {
    (if e.id == primary then t.attack else t.attack / 4.0) * mult
  }

  /** Whether the explosion reaches an enemy: a living primary, or a living enemy in the blast. */
  predicate Caught(primary: nat, blast: set<nat>, e: Enemy) {
    e.hp > 0.0 && (e.id == primary || e.id in blast)
  }

  /** One enemy of the explosion branch: caught enemies detonate, everyone else is untouched. */
  function ExplosionHit(t: Tower, primary: nat, blast: set<nat>, mult: real, now: int, e: Enemy): (h: Hit)
    ensures !Caught(primary, blast, e) ==> h.enemy == e && h.dealt == 0.0 && !h.killed
    ensures Caught(primary, blast, e) ==> h == Detonate(t, BlastDamage(t, primary, mult, e), now, e)
    ensures h.enemy.hp == e.hp - h.dealt
  {
    if Caught(primary, blast, e) then Detonate(t, BlastDamage(t, primary, mult, e), now, e)
    else Hit(e, 0.0, false)
  }

  /** One enemy of the chain branch: chained enemies lose the attack; no kill is granted here. */
  function ChainHit(t: Tower, chained: set<nat>, mult: real, e: Enemy): (h: Hit)
    ensures !h.killed
    ensures e.id !in chained ==> h == Hit(e, 0.0, false)
    ensures e.id in chained ==>
              h.dealt == Min(t.attack * mult, e.hp) && h.enemy == e.(hp := e.hp - h.dealt, isTargeted := true)
  {
    if e.id in chained then
      var d := Min(t.attack * mult, e.hp);
      Hit(e.(hp := e.hp - d, isTargeted := true), d, false)
    else Hit(e, 0.0, false)
  }

  /** One enemy of the lingering branch's impact: targets lose the attack, nothing is credited. */
  function ImpactHit(t: Tower, targets: set<nat>, mult: real, e: Enemy): (h: Hit)
    ensures h.dealt == 0.0 && !h.killed
    ensures e.id !in targets ==> h.enemy == e
    ensures e.id in targets ==> h.enemy == e.(hp := e.hp - Min(t.attack * mult, e.hp))
  {
    if e.id in targets then Hit(e.(hp := e.hp - Min(t.attack * mult, e.hp)), 0.0, false)
    else Hit(e, 0.0, false)
  }

  /** `prevEnemies.map(f)`. */
  function Struck(pool: seq<Enemy>, f: Enemy -> Hit): (r: seq<Enemy>)
    ensures |r| == |pool|
    ensures forall i :: 0 <= i < |pool| ==> r[i] == f(pool[i]).enemy
  {
    if pool == [] then [] else Struck(pool[..|pool| - 1], f) + [f(pool[|pool| - 1]).enemy]
  }

  /** The running damage total of the map: the credited damage of every hit, summed from the front. */
  function Dealt(pool: seq<Enemy>, f: Enemy -> Hit): real {
    if pool == [] then 0.0 else Dealt(pool[..|pool| - 1], f) + f(pool[|pool| - 1]).dealt
  }

  /** The enemies (as they were before the hit) that this attack killed, in pool order. */
  function Killed(pool: seq<Enemy>, f: Enemy -> Hit): (r: seq<Enemy>)
    ensures forall e :: e in r <==> e in pool && f(e).killed
  {
    if pool == [] then []
    else Killed(pool[..|pool| - 1], f) + (if f(pool[|pool| - 1]).killed then [pool[|pool| - 1]] else [])
  }

  /** The total health of a pool. */
  function HpSum(pool: seq<Enemy>): real {
    if pool == [] then 0.0 else HpSum(pool[..|pool| - 1]) + pool[|pool| - 1].hp
  }

  /**
   * The source's map with an accumulator: apply the hit to every enemy, add up the credited
   * damage and collect the kills.
   */
  method StrikeAll(pool: seq<Enemy>, f: Enemy -> Hit) returns (next: seq<Enemy>, total: real, kills: seq<Enemy>)
    ensures next == Struck(pool, f)
    ensures total == Dealt(pool, f)
    ensures kills == Killed(pool, f)
  {
    next, total, kills := [], 0.0, [];
    var i := 0;
    while i < |pool|
      invariant 0 <= i <= |pool|
      invariant next == Struck(pool[..i], f)
      invariant total == Dealt(pool[..i], f)
      invariant kills == Killed(pool[..i], f)
    {
      var h := f(pool[i]);
      assert pool[..i + 1][..i] == pool[..i];
      next := next + [h.enemy];
      total := total + h.dealt;
      if h.killed {
        kills := kills + [pool[i]];
      }
      i := i + 1;
    }
    assert pool[..i] == pool;
  }

  /**
   * Damage conservation: when every hit lowers the stored health by exactly the damage it
   * credits, the attack's total equals the health the pool lost.
   */
  lemma {:induction false} DealtIsHealthLost(pool: seq<Enemy>, f: Enemy -> Hit)
    requires forall e :: e in pool ==> f(e).enemy.hp == e.hp - f(e).dealt
    ensures Dealt(pool, f) == HpSum(pool) - HpSum(Struck(pool, f))
  {
    if pool != [] {
      var init := pool[..|pool| - 1];
      assert forall e :: e in init ==> e in pool;
      DealtIsHealthLost(init, f);
      var s := Struck(pool, f);
      assert s[..|s| - 1] == Struck(init, f);
      assert pool[|pool| - 1] in pool;
    }
  }

  /** The ids of the enemies an attack was aimed at (`targets.some(target => target.id === enemy.id)`). */
  function TargetIds(targets: seq<Enemy>): set<nat> {
    set e | e in targets :: e.id
  }

  /** The per-enemy transform of each attack family. */
  function Blow(t: Tower, pool: seq<Enemy>, primary: Enemy, mult: real, now: int): Enemy -> Hit {
    var blast := BlastIds(pool, primary, t.explosionRadius);
    e => ExplosionHit(t, primary.id, blast, mult, now, e)
  }

  function Zap(t: Tower, chained: set<nat>, mult: real): Enemy -> Hit {
    e => ChainHit(t, chained, mult, e)
  }

  function Splash(t: Tower, targets: seq<Enemy>, mult: real): Enemy -> Hit {
    var ids := TargetIds(targets);
    e => ImpactHit(t, ids, mult, e)
  }

  function Shoot(t: Tower, targets: seq<Enemy>, mult: real, stunRolls: nat -> real, round: int, now: int): Enemy -> Hit {
    var ids := TargetIds(targets);
    (e: Enemy) => DirectHit(t, ids, mult, stunRolls(e.id), round, now, e)
  }

  /** An explosion credits exactly the health it removes. */
  lemma ExplosionConservesDamage(pool: seq<Enemy>, t: Tower, primary: Enemy, mult: real, now: int)
    ensures var f := Blow(t, pool, primary, mult, now);
            Dealt(pool, f) == HpSum(pool) - HpSum(Struck(pool, f))
  {
    DealtIsHealthLost(pool, Blow(t, pool, primary, mult, now));
  }

  /** A chain credits exactly the health it removes. */
  lemma ChainConservesDamage(pool: seq<Enemy>, t: Tower, chained: set<nat>, mult: real)
    ensures var f := Zap(t, chained, mult);
            Dealt(pool, f) == HpSum(pool) - HpSum(Struck(pool, f))
  {
    DealtIsHealthLost(pool, Zap(t, chained, mult));
  }

  /**
   * A single/multi-target attack credits exactly the health it removes, provided no target is
   * alive behind armour the tower cannot pierce (there the damage is credited but not removed).
   */
  lemma DirectConservesDamage(pool: seq<Enemy>, t: Tower, targets: seq<Enemy>, mult: real, stunRolls: nat -> real,
                              round: int, now: int)
    requires t.attack * mult >= 0.0
    requires forall e :: e in pool && e.id in TargetIds(targets) ==> e.hp >= 0.0 && !(e.isArmored && !t.canHitArmored)
    ensures var f := Shoot(t, targets, mult, stunRolls, round, now);
            Dealt(pool, f) == HpSum(pool) - HpSum(Struck(pool, f))
  {
    var f := Shoot(t, targets, mult, stunRolls, round, now);
    forall e | e in pool ensures f(e).enemy.hp == e.hp - f(e).dealt {
      assert f(e) == DirectHit(t, TargetIds(targets), mult, stunRolls(e.id), round, now, e);
    }
    DealtIsHealthLost(pool, f);
  }

  /** Chain links: a living enemy not yet chained, within the chain range of the current link. */
  predicate Linkable(e: Enemy, chained: set<nat>, current: Enemy, range: real) {
    e.hp > 0.0 && e.id !in chained && Within(e.x, e.y, current.x, current.y, range)
  }

  /** `prevEnemies.find(...)`: the first linkable enemy of the pool, if any. */
  function NextLink(pool: seq<Enemy>, chained: set<nat>, current: Enemy, range: real): (r: Option<Enemy>)
    ensures r.None? <==> forall e :: e in pool ==> !Linkable(e, chained, current, range)
    ensures r.Some? ==> r.value in pool && Linkable(r.value, chained, current, range)
  {
    if pool == [] then None
    else if Linkable(pool[0], chained, current, range) then Some(pool[0])
    else
      var r := NextLink(pool[1..], chained, current, range);
      assert forall e :: e in pool ==> e == pool[0] || e in pool[1..];
      r
  }

  /** The link `find` returns is the first linkable one: no enemy before it in the pool is linkable. */
  lemma {:induction false} NextLinkIsFirst(pool: seq<Enemy>, chained: set<nat>, current: Enemy, range: real)
    requires NextLink(pool, chained, current, range).Some?
    ensures exists i :: 0 <= i < |pool| && pool[i] == NextLink(pool, chained, current, range).value &&
                        forall j :: 0 <= j < i ==> !Linkable(pool[j], chained, current, range)
  {
    if !Linkable(pool[0], chained, current, range) {
      var rest := pool[1..];
      NextLinkIsFirst(rest, chained, current, range);
      var i :| 0 <= i < |rest| && rest[i] == NextLink(rest, chained, current, range).value &&
               forall j :: 0 <= j < i ==> !Linkable(rest[j], chained, current, range);
      assert pool[i + 1] == rest[i];
      assert forall j :: 0 < j <= i ==> pool[j] == rest[j - 1];
    }
  }

  /** A chain: no enemy twice, and every link after the first a living pool enemy within range of the one before. */
  predicate ChainShape(pool: seq<Enemy>, walk: seq<Enemy>, range: real) {
    (forall i, j :: 0 <= i < j < |walk| ==> walk[i].id != walk[j].id) &&
    (forall i :: 1 <= i < |walk| ==>
       walk[i] in pool && walk[i].hp > 0.0 && Within(walk[i].x, walk[i].y, walk[i - 1].x, walk[i - 1].y, range))
  }

  /** The ids of the chained enemies (the source's `chainedEnemies` set). */
  function LinkIds(walk: seq<Enemy>): set<nat> {
    if walk == [] then {} else LinkIds(walk[..|walk| - 1]) + {walk[|walk| - 1].id}
  }

  lemma {:induction false} LinkIdsHasAll(walk: seq<Enemy>)
    ensures forall i :: 0 <= i < |walk| ==> walk[i].id in LinkIds(walk)
  {
    if walk != [] {
      LinkIdsHasAll(walk[..|walk| - 1]);
    }
  }

  /** Adding the next link keeps the chain's shape. */
  lemma ExtendChain(pool: seq<Enemy>, walk: seq<Enemy>, range: real, e: Enemy)
    requires ChainShape(pool, walk, range) && walk != []
    requires e in pool && Linkable(e, LinkIds(walk), walk[|walk| - 1], range)
    ensures ChainShape(pool, walk + [e], range)
    ensures LinkIds(walk + [e]) == LinkIds(walk) + {e.id}
  {
    LinkIdsHasAll(walk);
    var w := walk + [e];
    assert w[..|walk|] == walk;
    forall i, j | 0 <= i < j < |w| ensures w[i].id != w[j].id {
      if j == |walk| {
        assert w[i] == walk[i];
      } else {
        assert w[i] == walk[i] && w[j] == walk[j];
      }
    }
    forall i | 1 <= i < |w|
      ensures w[i] in pool && w[i].hp > 0.0 && Within(w[i].x, w[i].y, w[i - 1].x, w[i - 1].y, range)
    {
      if i < |walk| {
        assert w[i] == walk[i] && w[i - 1] == walk[i - 1];
      }
    }
  }

  /**
   * The chain grown from `walk` with `left` links to go: while more than one is left, the first
   * linkable enemy of the pool joins it, until no enemy is in reach.
   */
  function ChainFrom(pool: seq<Enemy>, walk: seq<Enemy>, left: int, range: real): (r: seq<Enemy>)
    requires walk != []
    ensures |r| >= |walk|
    decreases left
  {
    if left <= 1 then walk
    else match NextLink(pool, LinkIds(walk), walk[|walk| - 1], range)
      case None => walk
      case Some(e) => ChainFrom(pool, walk + [e], left - 1, range)
  }

  /** The chain a tower's attack walks from its primary target: `chainCount || 1` links within `chainRange || 15`. */
  function ChainOf(pool: seq<Enemy>, t: Tower, primary: Enemy): seq<Enemy> {
    ChainFrom(pool, [primary], OrInt(t.chainCount, 1), Or(t.chainRange, 15.0))
  }

  /** A grown chain extends `walk` by at most `left - 1` links, and by none when `left` is below 1. */
  lemma {:induction false} ChainFromGrows(pool: seq<Enemy>, walk: seq<Enemy>, left: int, range: real)
    requires walk != []
    ensures ChainFrom(pool, walk, left, range)[..|walk|] == walk
    ensures left < 1 ==> ChainFrom(pool, walk, left, range) == walk
    ensures left >= 1 ==> |ChainFrom(pool, walk, left, range)| <= |walk| + left - 1
    decreases left
  {
    if left > 1 {
      var next := NextLink(pool, LinkIds(walk), walk[|walk| - 1], range);
      if next.Some? {
        var w := walk + [next.value];
        assert ChainFrom(pool, walk, left, range) == ChainFrom(pool, w, left - 1, range);
        ChainFromGrows(pool, w, left - 1, range);
        var r := ChainFrom(pool, w, left - 1, range);
        assert r[..|walk|] == r[..|w|][..|walk|];
        assert w[..|walk|] == walk;
      }
    }
  }

  /** Growing a chain keeps its shape: no enemy twice, each link in range of the one before. */
  lemma {:induction false} ChainFromShape(pool: seq<Enemy>, walk: seq<Enemy>, left: int, range: real)
    requires walk != [] && ChainShape(pool, walk, range)
    ensures ChainShape(pool, ChainFrom(pool, walk, left, range), range)
    decreases left
  {
    if left > 1 {
      var next := NextLink(pool, LinkIds(walk), walk[|walk| - 1], range);
      if next.Some? {
        ExtendChain(pool, walk, range, next.value);
        ChainFromShape(pool, walk + [next.value], left - 1, range);
      }
    }
  }

  /**
   * The chain walk: starting from the primary target, repeatedly jump to the first linkable
   * enemy while links remain (`chainCount || 1` links in all). Ends early when no enemy is in
   * reach; each link is within range of the previous one and no enemy is chained twice.
   */
  method ChainWalk(pool: seq<Enemy>, first: Enemy, chainCount: Option<int>, range: real)
    returns (walk: seq<Enemy>, chained: set<nat>)
    ensures walk == ChainFrom(pool, [first], OrInt(chainCount, 1), range)
    ensures |walk| >= 1 && walk[0] == first
    ensures OrInt(chainCount, 1) >= 1 ==> |walk| <= OrInt(chainCount, 1)
    ensures OrInt(chainCount, 1) < 1 ==> |walk| == 1
    ensures chained == LinkIds(walk)
    ensures ChainShape(pool, walk, range)
    ensures |walk| < OrInt(chainCount, 1) ==> NextLink(pool, chained, walk[|walk| - 1], range).None?
  {
    var links := OrInt(chainCount, 1);
    walk, chained := [first], {first.id};
    assert LinkIds(walk) == {first.id} by { assert walk[..0] == []; }
    if links <= 1 {
      return;
    }
    var chainsLeft := links;
    var current := first;
    while chainsLeft > 1
      invariant |walk| >= 1 && walk[0] == first && current == walk[|walk| - 1]
      invariant 1 <= chainsLeft && |walk| - 1 + chainsLeft == links
      invariant chained == LinkIds(walk)
      invariant ChainShape(pool, walk, range)
      invariant ChainFrom(pool, walk, chainsLeft, range) == ChainFrom(pool, [first], links, range)
    {
      var next := NextLink(pool, chained, current, range);
      if next.None? {
        assert ChainFrom(pool, walk, chainsLeft, range) == walk;
        return;
      }
      var e := next.value;
      assert ChainFrom(pool, walk, chainsLeft, range) == ChainFrom(pool, walk + [e], chainsLeft - 1, range);
      ExtendChain(pool, walk, range, e);
      chained := chained + {e.id};
      walk := walk + [e];
      current := e;
      chainsLeft := chainsLeft - 1;
    }
  }

  /** A lingering zone left at `at` with the tower's settings (or their fallbacks). */
  function ZoneAt(id: nat, t: Tower, at: Enemy, defaultRadius: real, now: int): (z: Zone)
    ensures z.x == at.x && z.y == at.y && z.timestamp == now
    ensures z.damage == Or(t.lingeringDamage, t.attack * 0.1)
    ensures z.radius == Or(t.lingeringRadius, defaultRadius) && z.duration == Or(t.lingeringDuration, 2000.0)
  {
    Zone(id, at.x, at.y, Or(t.lingeringDamage, t.attack * 0.1), Or(t.lingeringRadius, defaultRadius), now,
         Or(t.lingeringDuration, 2000.0))
  }

  /** What an attack does: the new pool, the damage credited, the kills, a new zone, and the chain links. */
  datatype Outcome = Outcome(pool: seq<Enemy>, dealt: real, kills: seq<Enemy>, zone: Option<Zone>, walk: seq<Enemy>)

  /** The explosion branch: the blast around the primary target, and a zone when the tower lingers. */
  method Explode(pool: seq<Enemy>, t: Tower, primary: Enemy, mult: real, now: int, zoneId: nat) returns (o: Outcome)
    ensures var f := Blow(t, pool, primary, mult, now);
            o.pool == Struck(pool, f) && o.dealt == Dealt(pool, f) && o.kills == Killed(pool, f) &&
            o.dealt == HpSum(pool) - HpSum(o.pool) &&
            o.zone == (if t.hasLingering then Some(ZoneAt(zoneId, t, primary, 15.0, now)) else None)
  {
    var f := Blow(t, pool, primary, mult, now);
    var next, total, kills := StrikeAll(pool, f);
    ExplosionConservesDamage(pool, t, primary, mult, now);
    var zone := if t.hasLingering then Some(ZoneAt(zoneId, t, primary, 15.0, now)) else None;
    o := Outcome(next, total, kills, zone, []);
  }

  /** The chain branch: walk the chain from the primary target, then hit every chained enemy. */
  method ChainStrike(pool: seq<Enemy>, t: Tower, primary: Enemy, mult: real) returns (o: Outcome)
    ensures var f := Zap(t, LinkIds(o.walk), mult);
            o.walk == ChainOf(pool, t, primary) &&
            o.walk != [] && o.walk[0] == primary && ChainShape(pool, o.walk, Or(t.chainRange, 15.0)) &&
            (OrInt(t.chainCount, 1) >= 1 ==> |o.walk| <= OrInt(t.chainCount, 1)) &&
            (|o.walk| < OrInt(t.chainCount, 1) ==>
               NextLink(pool, LinkIds(o.walk), o.walk[|o.walk| - 1], Or(t.chainRange, 15.0)).None?) &&
            o.pool == Struck(pool, f) && o.dealt == Dealt(pool, f) && o.kills == [] &&
            o.dealt == HpSum(pool) - HpSum(o.pool) && o.zone.None?
  {
    var walk, chained := ChainWalk(pool, primary, t.chainCount, Or(t.chainRange, 15.0));
    var f := Zap(t, chained, mult);
    var next, total, kills := StrikeAll(pool, f);
    ChainConservesDamage(pool, t, chained, mult);
    NoChainKills(pool, t, chained, mult);
    o := Outcome(next, total, [], None, walk);
  }

  /** The single/multi-target branch. */
  method Volley(pool: seq<Enemy>, t: Tower, targets: seq<Enemy>, mult: real, stunRolls: nat -> real, round: int, now: int)
    returns (o: Outcome)
    ensures var f := Shoot(t, targets, mult, stunRolls, round, now);
            o.pool == Struck(pool, f) && o.dealt == Dealt(pool, f) && o.kills == Killed(pool, f) && o.zone.None?
  {
    var f := Shoot(t, targets, mult, stunRolls, round, now);
    var next, total, kills := StrikeAll(pool, f);
    o := Outcome(next, total, kills, None, []);
  }

  /**
   * What one attack of a tower on its (never empty) targets produces: the critical draw is made
   * once, the attack family decides the per-enemy transform, and the new pool, the running
   * total and the kills come from the map over the whole pool.
   */
  predicate Resolves(o: Outcome, pool: seq<Enemy>, t: Tower, targets: seq<Enemy>, critRoll: real,
                     stunRolls: nat -> real, round: int, now: int, zoneId: nat)
  {
    targets != [] && |o.pool| == |pool| &&
    (t.attackType == Explosion ==>
       var f := Blow(t, pool, targets[0], Multiplier(t, critRoll), now);
       o.pool == Struck(pool, f) && o.dealt == Dealt(pool, f) && o.kills == Killed(pool, f) &&
       o.dealt == HpSum(pool) - HpSum(o.pool) &&
       o.zone == (if t.hasLingering then Some(ZoneAt(zoneId, t, targets[0], 15.0, now)) else None)) &&
    (t.attackType == Chain ==>
       var f := Zap(t, LinkIds(o.walk), Multiplier(t, critRoll));
       o.walk == ChainOf(pool, t, targets[0]) &&
       o.walk != [] && o.walk[0] == targets[0] && ChainShape(pool, o.walk, Or(t.chainRange, 15.0)) &&
       (OrInt(t.chainCount, 1) >= 1 ==> |o.walk| <= OrInt(t.chainCount, 1)) &&
       (|o.walk| < OrInt(t.chainCount, 1) ==>
          NextLink(pool, LinkIds(o.walk), o.walk[|o.walk| - 1], Or(t.chainRange, 15.0)).None?) &&
       o.pool == Struck(pool, f) && o.dealt == Dealt(pool, f) && o.kills == [] &&
       o.dealt == HpSum(pool) - HpSum(o.pool) && o.zone.None?) &&
    (t.attackType == Lingering ==>
       o.pool == Struck(pool, Splash(t, targets, Multiplier(t, critRoll))) && o.dealt == 0.0 && o.kills == [] &&
       o.zone == Some(ZoneAt(zoneId, t, targets[0], 10.0, now))) &&
    (t.attackType !in {Explosion, Chain, Lingering} ==>
       var f := Shoot(t, targets, Multiplier(t, critRoll), stunRolls, round, now);
       o.pool == Struck(pool, f) && o.dealt == Dealt(pool, f) && o.kills == Killed(pool, f) && o.zone.None?)
  }

  /** towerAttack's enemy update: one attack, resolved by its attack family. */
  method Resolve(pool: seq<Enemy>, t: Tower, targets: seq<Enemy>, critRoll: real, stunRolls: nat -> real,
                 round: int, now: int, zoneId: nat) returns (o: Outcome)
    requires targets != []
    ensures Resolves(o, pool, t, targets, critRoll, stunRolls, round, now, zoneId)
  {
    var mult := Multiplier(t, critRoll);
    if t.attackType == Explosion {
      o := Explode(pool, t, targets[0], mult, now, zoneId);
    } else if t.attackType == Chain {
      o := ChainStrike(pool, t, targets[0], mult);
    } else if t.attackType == Lingering {
      o := Outcome(Struck(pool, Splash(t, targets, mult)), 0.0, [], Some(ZoneAt(zoneId, t, targets[0], 10.0, now)), []);
    } else {
      o := Volley(pool, t, targets, mult, stunRolls, round, now);
    }
  }

  /** The chain branch never grants a kill itself (the dead-enemy sweep pays for those). */
  lemma {:induction false} NoChainKills(pool: seq<Enemy>, t: Tower, chained: set<nat>, mult: real)
    ensures Killed(pool, Zap(t, chained, mult)) == []
  {
    if pool != [] {
      NoChainKills(pool[..|pool| - 1], t, chained, mult);
    }
  }
}
