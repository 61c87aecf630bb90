/**
 * The status-effect reconcilers of app/GameLogic.tsx that run on their own timers: slow
 * expiry, stun expiry, the poison tick with its per-tower damage tally, and the lingering-zone
 * tick. The clock is the `now` parameter; the speed setting is `speedUp` (0 normal, 1 double,
 * 2 triple).
 */
module StatusEffects {
  import opened Entities
  import opened Combat

  /** The divisor the speed setting applies to every duration: 3 at triple speed, 2 at double, else 1. */
  function SpeedFactor(speedUp: int): (f: real)
    ensures f >= 1.0
  {
    if speedUp == 2 then 3.0 else if speedUp != 0 then 2.0 else 1.0
  }

  /** `tower.find(t => t.id === id)`: the first tower with the id. */
  function FindTower(towers: seq<Tower>, id: nat): (r: Option<Tower>)
    ensures r.Some? ==> r.value in towers && r.value.id == id
    ensures r.None? <==> forall t :: t in towers ==> t.id != id
  {
    if towers == [] then None
    else if towers[0].id == id then Some(towers[0])
    else
      assert forall t :: t in towers ==> t == towers[0] || t in towers[1..];
      FindTower(towers[1..], id)
  }

  /** An enemy whose slow the reconciler looks at: slowed, with a source and a (truthy) start time. */
  predicate SlowTracked(e: Enemy) {
    e.isSlowed && e.slowSourceId.Some? && Present(e.slowStartTime)
  }

  /** A slow ends once its source tower's duration (2500 by default, divided by the speed factor) has passed. */
  predicate SlowExpired(e: Enemy, towers: seq<Tower>, now: int, speedUp: int) {
    SlowTracked(e) &&
    var src := FindTower(towers, e.slowSourceId.value);
    src.Some? && (now - e.slowStartTime.value) as real >= Or(src.value.slowDuration, 2500.0) / SpeedFactor(speedUp)
  }

  /**
   * The slow reconciler for one enemy: an expired slow is cleared and the base speed comes back
   * unless the enemy is stunned; the remembered slow value stays. Anything else is left alone,
   * including a slow whose source tower is gone.
   */
  function ExpireSlow(e: Enemy, towers: seq<Tower>, now: int, speedUp: int): (r: Enemy)
    ensures !SlowExpired(e, towers, now, speedUp) ==> r == e
    ensures SlowExpired(e, towers, now, speedUp) ==>
              r == e.(isSlowed := false, slowSourceId := None, slowStartTime := None, speed := r.speed) &&
              r.speed == (if e.isStunned then e.speed else e.baseSpeed)
  {
    if !e.isSlowed || e.slowSourceId.None? || !Present(e.slowStartTime) then e
    else match FindTower(towers, e.slowSourceId.value)
      case None => e
      case Some(src) =>
        if (now - e.slowStartTime.value) as real >= Or(src.slowDuration, 2500.0) / SpeedFactor(speedUp) then
          e.(speed := if !e.isStunned then e.baseSpeed else e.speed,
             isSlowed := false, slowSourceId := None, slowStartTime := None)
        else e
  }

  /** Once expired, a slow stays expired: later passes of the reconciler change nothing. */
  lemma ExpireSlowSettles(e: Enemy, towers: seq<Tower>, now: int, later: int, speedUp: int)
    requires SlowExpired(e, towers, now, speedUp)
    ensures ExpireSlow(ExpireSlow(e, towers, now, speedUp), towers, later, speedUp) == ExpireSlow(e, towers, now, speedUp)
  {
  }

  /** A slow whose source tower has been sold never expires. */
  lemma OrphanSlowPersists(e: Enemy, towers: seq<Tower>, now: int, speedUp: int)
    requires e.slowSourceId.Some? && forall t :: t in towers ==> t.id != e.slowSourceId.value
    ensures ExpireSlow(e, towers, now, speedUp) == e
  {
  }

  predicate StunTracked(e: Enemy) {
    e.isStunned && e.stunSourceId.Some? && Present(e.stunStartTime)
  }

  /** A stun ends once its source tower's stun duration (150 by default, divided by the speed factor) has passed. */
  predicate StunExpired(e: Enemy, towers: seq<Tower>, now: int, speedUp: int) {
    StunTracked(e) &&
    var src := FindTower(towers, e.stunSourceId.value);
    src.Some? && (now - e.stunStartTime.value) as real >= Or(src.value.stunDuration, 150.0) / SpeedFactor(speedUp)
  }

  /**
   * The stun reconciler for one enemy: an expired stun is cleared and the enemy moves again, at
   * base speed times its slow value when it is still slowed.
   */
  function ExpireStun(e: Enemy, towers: seq<Tower>, now: int, speedUp: int): (r: Enemy)
    ensures !StunExpired(e, towers, now, speedUp) ==> r == e
    ensures StunExpired(e, towers, now, speedUp) ==>
              r == e.(isStunned := false, stunSourceId := None, stunStartTime := None, speed := r.speed) &&
              r.speed == (if e.isSlowed then e.baseSpeed * Nullish(e.slowValue, 1.0) else e.baseSpeed)
  {
    if !e.isStunned || e.stunSourceId.None? || !Present(e.stunStartTime) then e
    else match FindTower(towers, e.stunSourceId.value)
      case None => e
      case Some(src) =>
        if (now - e.stunStartTime.value) as real >= Or(src.stunDuration, 150.0) / SpeedFactor(speedUp) then
          e.(speed := if e.isSlowed then e.baseSpeed * Nullish(e.slowValue, 1.0) else e.baseSpeed,
             isStunned := false, stunSourceId := None, stunStartTime := None)
        else e
  }

  /** Once expired, a stun stays expired: later passes of the reconciler change nothing. */
  lemma ExpireStunSettles(e: Enemy, towers: seq<Tower>, now: int, later: int, speedUp: int)
    requires StunExpired(e, towers, now, speedUp)
    ensures ExpireStun(ExpireStun(e, towers, now, speedUp), towers, later, speedUp) == ExpireStun(e, towers, now, speedUp)
  {
  }

  /** How long poison lasts at each speed setting. */
  function PoisonDuration(speedUp: int): real {
    if speedUp == 2 then 1333.0 else if speedUp != 0 then 2000.0 else 4000.0
  }

  /** The poison timer's period at each speed setting. */
  function PoisonTickRate(speedUp: int): real {
    if speedUp == 2 then 3.33 else if speedUp != 0 then 5.0 else 10.0
  }

  /** The damage one tick deals: four times the tower's poison damage spread over the ticks of one duration. */
  function PoisonPerTick(poisonDamage: real, speedUp: int): (d: real)
    ensures speedUp != 2 ==> d == poisonDamage / 100.0
  {
    4.0 * poisonDamage / (PoisonDuration(speedUp) / PoisonTickRate(speedUp))
  }

  predicate PoisonTracked(e: Enemy) {
    e.isPoisoned && e.poisonSourceId.Some? && Present(e.poisonStartTime)
  }

  predicate PoisonExpired(e: Enemy, now: int, speedUp: int) {
    PoisonTracked(e) && (now - e.poisonStartTime.value) as real >= PoisonDuration(speedUp)
  }

  /** A tracked, running poison whose source tower still exists and has non-zero poison damage. */
  predicate Doses(e: Enemy, towers: seq<Tower>, now: int, speedUp: int) {
    PoisonTracked(e) && !PoisonExpired(e, now, speedUp) &&
    var src := FindTower(towers, e.poisonSourceId.value);
    src.Some? && src.value.poisonDamage != 0.0
  }

  /** The poison dose of the tick: which tower's damage this enemy takes. */
  function DoseTower(e: Enemy, towers: seq<Tower>, now: int, speedUp: int): Tower
    requires Doses(e, towers, now, speedUp)
  {
    FindTower(towers, e.poisonSourceId.value).value
  }

  /** An expired poison is cleared and regeneration is switched back on. */
  function Cure(e: Enemy): Enemy {
    e.(isPoisoned := false, poisonSourceId := None, poisonStartTime := None, canRegen := true)
  }

  /** One dose of a tower with the given poison damage, clamped to the remaining health. */
  function ApplyDose(e: Enemy, poisonDamage: real, speedUp: int): (h: Hit)
    ensures h.dealt == Min(PoisonPerTick(poisonDamage, speedUp), e.hp)
    ensures h.enemy == e.(hp := e.hp - h.dealt)
    ensures h.killed <==> h.enemy.hp <= 0.0 && e.hp > 0.0
  {
    var d := Min(PoisonPerTick(poisonDamage, speedUp), e.hp);
    Hit(e.(hp := e.hp - d), d, e.hp - d <= 0.0 && e.hp > 0.0)
  }

  /**
   * The poison tick for one enemy. An expired poison is cured; a running one whose source tower
   * still exists with non-zero poison damage takes a dose; anything else is left alone. Only
   * the dose can kill.
   */
  function PoisonTick(towers: seq<Tower>, now: int, speedUp: int, e: Enemy): (h: Hit)
    ensures PoisonExpired(e, now, speedUp) ==> h == Hit(Cure(e), 0.0, false)
    ensures Doses(e, towers, now, speedUp) ==>
              h == ApplyDose(e, DoseTower(e, towers, now, speedUp).poisonDamage, speedUp)
    ensures !PoisonExpired(e, now, speedUp) && !Doses(e, towers, now, speedUp) ==> h == Hit(e, 0.0, false)
    ensures h.enemy.hp == e.hp - h.dealt
  {
    if PoisonExpired(e, now, speedUp) then Hit(Cure(e), 0.0, false)
    else if Doses(e, towers, now, speedUp) then ApplyDose(e, DoseTower(e, towers, now, speedUp).poisonDamage, speedUp)
    else Hit(e, 0.0, false)
  }

  function Dose(towers: seq<Tower>, now: int, speedUp: int): Enemy -> Hit {
    e => PoisonTick(towers, now, speedUp, e)
  }

  /** The poison damage the tick credits to tower `id`: the doses of the enemies it poisoned. */
  function DosedBy(pool: seq<Enemy>, towers: seq<Tower>, now: int, speedUp: int, id: nat): real {
    if pool == [] then 0.0
    else
      var e := pool[|pool| - 1];
      DosedBy(pool[..|pool| - 1], towers, now, speedUp, id) +
      (if Doses(e, towers, now, speedUp) && e.poisonSourceId == Some(id) then PoisonTick(towers, now, speedUp, e).dealt else 0.0)
  }

  lemma DosedByStep(pool: seq<Enemy>, towers: seq<Tower>, now: int, speedUp: int, i: nat)
    requires i < |pool|
    ensures forall id: nat :: DosedBy(pool[..i + 1], towers, now, speedUp, id) ==
              DosedBy(pool[..i], towers, now, speedUp, id) +
              (if Doses(pool[i], towers, now, speedUp) && pool[i].poisonSourceId == Some(id)
               then PoisonTick(towers, now, speedUp, pool[i]).dealt else 0.0)
  {
    assert pool[..i + 1][..i] == pool[..i];
  }

  /** `poisonDamageByTower[id] || 0`. */
  function Tally(m: map<nat, real>, id: nat): real {
    if id in m then m[id] else 0.0
  }

  /** `poisonDamageByTower[src] += dose` for an enemy that takes a dose. */
  function Credit(m: map<nat, real>, e: Enemy, towers: seq<Tower>, now: int, speedUp: int): map<nat, real> {
    if Doses(e, towers, now, speedUp) then
      var src := e.poisonSourceId.value;
      m[src := Tally(m, src) + PoisonTick(towers, now, speedUp, e).dealt]
    else m
  }

  /** The per-tower tally agrees with the doses the enemies of `pool` took. */
  ghost predicate TalliesDoses(m: map<nat, real>, pool: seq<Enemy>, towers: seq<Tower>, now: int, speedUp: int) {
    forall id: nat :: Tally(m, id) == DosedBy(pool, towers, now, speedUp, id)
  }

  /** Crediting the next enemy's dose keeps the tally in step with the pool prefix. */
  lemma CreditStep(m: map<nat, real>, pool: seq<Enemy>, towers: seq<Tower>, now: int, speedUp: int, i: nat)
    requires i < |pool|
    requires TalliesDoses(m, pool[..i], towers, now, speedUp)
    ensures TalliesDoses(Credit(m, pool[i], towers, now, speedUp), pool[..i + 1], towers, now, speedUp)
  {
    DosedByStep(pool, towers, now, speedUp, i);
  }

  /**
   * The poison timer's pool pass: every enemy takes its poison tick, and the damage of every
   * dose is added up per source tower and in total.
   */
  method PoisonAll(pool: seq<Enemy>, towers: seq<Tower>, now: int, speedUp: int)
    returns (next: seq<Enemy>, byTower: map<nat, real>, total: real, kills: seq<Enemy>)
    ensures next == Struck(pool, Dose(towers, now, speedUp))
    ensures kills == Killed(pool, Dose(towers, now, speedUp))
    ensures TalliesDoses(byTower, pool, towers, now, speedUp)
    ensures total == Dealt(pool, Dose(towers, now, speedUp))
  {
    var f := Dose(towers, now, speedUp);
    next, byTower, total, kills := [], map[], 0.0, [];
    var i := 0;
    while i < |pool|
      invariant 0 <= i <= |pool|
      invariant next == Struck(pool[..i], f)
      invariant kills == Killed(pool[..i], f)
      invariant TalliesDoses(byTower, pool[..i], towers, now, speedUp)
      invariant total == Dealt(pool[..i], f)
    {
      var e := pool[i];
      var h := f(e);
      assert pool[..i + 1][..i] == pool[..i];
      CreditStep(byTower, pool, towers, now, speedUp, i);
      byTower := Credit(byTower, e, towers, now, speedUp);
      next, total := next + [h.enemy], total + h.dealt;
      if h.killed {
        kills := kills + [e];
      }
      i := i + 1;
    }
    assert pool[..i] == pool;
  }

  /** Every dose the poison tick credits to towers comes out of the poisoned enemies' health. */
  lemma PoisonConservesDamage(pool: seq<Enemy>, towers: seq<Tower>, now: int, speedUp: int)
    ensures var f := Dose(towers, now, speedUp);
            Dealt(pool, f) == HpSum(pool) - HpSum(Struck(pool, f))
  {
    DealtIsHealthLost(pool, Dose(towers, now, speedUp));
  }

  /** The damage the zones deal an enemy this tick: the sum over the zones whose radius covers it. */
  function ZoneDamage(zones: seq<Zone>, e: Enemy): real {
    if zones == [] then 0.0
    else
      var z := zones[|zones| - 1];
      ZoneDamage(zones[..|zones| - 1], e) + (if Within(e.x, e.y, z.x, z.y, z.radius) then z.damage else 0.0)
  }

  /** Zones with non-negative damage deal non-negative damage, and nothing to an enemy outside them all. */
  lemma {:induction false} ZoneDamageBounds(zones: seq<Zone>, e: Enemy)
    requires forall z :: z in zones ==> z.damage >= 0.0
    ensures ZoneDamage(zones, e) >= 0.0
    ensures (forall z :: z in zones ==> !Within(e.x, e.y, z.x, z.y, z.radius)) ==> ZoneDamage(zones, e) == 0.0
  {
    if zones != [] {
      assert forall z :: z in zones[..|zones| - 1] ==> z in zones;
      ZoneDamageBounds(zones[..|zones| - 1], e);
      assert zones[|zones| - 1] in zones;
    }
  }

  /**
   * The lingering tick for one enemy: a positive zone total lowers the health, never below 0.
   * Nothing is credited to a tower; the kill is granted when the health reaches 0.
   */
  function LingerHit(zones: seq<Zone>, e: Enemy): (h: Hit)
    ensures h.dealt == 0.0
    ensures ZoneDamage(zones, e) <= 0.0 ==> h == Hit(e, 0.0, false)
    ensures ZoneDamage(zones, e) > 0.0 ==>
              h.enemy == e.(hp := Max(0.0, e.hp - ZoneDamage(zones, e))) &&
              (h.killed <==> h.enemy.hp <= 0.0 && e.hp > 0.0)
  {
    var total := ZoneDamage(zones, e);
    if total > 0.0 then
      var hp := Max(0.0, e.hp - total);
      Hit(e.(hp := hp), 0.0, hp <= 0.0 && e.hp > 0.0)
    else Hit(e, 0.0, false)
  }

  function Linger(zones: seq<Zone>): Enemy -> Hit {
    e => LingerHit(zones, e)
  }

  /** The zones still alive at `now`: younger than their duration. */
  function LiveZones(zones: seq<Zone>, now: int): (r: seq<Zone>)
    ensures |r| <= |zones|
    ensures forall z :: z in r <==> z in zones && ((now - z.timestamp) as real) < z.duration
  {
    if zones == [] then []
    else (if ((now - zones[0].timestamp) as real) < zones[0].duration then [zones[0]] else []) + LiveZones(zones[1..], now)
  }
}
