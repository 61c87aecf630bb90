/**
 * The per-enemy rules of app/Spawn.tsx: its path (moveEnemy), the two attack families of its
 * towerAttack (the explosion and the shot), the money an attack earns, and its slow timer.
 */
module LegacyCombat {
  import opened Entities
  import opened Movement
  import Aim = Targeting
  import opened Combat
  import opened StatusEffects

  /**
   * The path segment a position is on, 1 to 7, by the guards the older moveEnemy tests in turn
   * (the same guards, in the same order, as the target-selection progress score).
   */
  function Segment(x: real, y: real): (n: nat)
    ensures 1 <= n <= 7
  {
    if x < 28.0 then 1
    else if x >= 28.0 && x < 52.0 && y > 15.0 then 2
    else if y <= 15.0 && x < 52.0 then 3
    else if x >= 52.0 && x < 75.0 && y < 87.0 then 4
    else if y >= 87.0 && x < 75.0 then 5
    else if x >= 75.0 && y > 50.0 then 6
    else 7
  }

  /** One movement tick of a position on the older path: each segment moves it by multiples of the speed. */
  function PathStep(x: real, y: real, speed: real): (p: (real, real))
    ensures speed == 0.0 ==> p == (x, y)
    ensures speed >= 0.0 ==> p.0 >= x
    ensures speed > 0.0 ==> p != (x, y)
  {
    var s := speed;
    match Segment(x, y)
    case 1 => (x + s, y - s / 10.0)
    case 2 => (x + s / 3.0, y - s * 2.0)
    case 4 => (x, y + s * 2.0)
    case 6 => (x + s / 10.0, y - s * 2.0)
    case _ => (x + s, y)
  }

  /** The older moveEnemy for one enemy: only the position changes. */
  function March(e: Enemy): (r: Enemy)
    ensures r == e.(x := r.x, y := r.y)
    ensures (r.x, r.y) == PathStep(e.x, e.y, e.speed)
  {
    var p := PathStep(e.x, e.y, e.speed);
    e.(x := p.0, y := p.1)
  }

  /**
   * On the older path the target-selection score follows the movement: an enemy that moves and
   * stays on its segment is strictly further along afterwards.
   */
  lemma MarchAdvances(e: Enemy)
    requires e.speed > 0.0
    requires Segment(March(e).x, March(e).y) == Segment(e.x, e.y)
    ensures Aim.Progress(March(e)) > Aim.Progress(e)
  {
  }

  /** `.map(move)` over the pool. */
  function Marched(es: seq<Enemy>): (r: seq<Enemy>)
    ensures |r| == |es|
    ensures forall i :: 0 <= i < |es| ==> r[i] == March(es[i])
  {
    if es == [] then [] else [March(es[0])] + Marched(es[1..])
  }

  /** The older movement tick: move everyone, then drop the dead. */
  function MarchAll(es: seq<Enemy>): (r: seq<Enemy>)
    ensures |r| <= |es|
    ensures forall e :: e in r ==> e.hp > 0.0
  {
    Living(Marched(es))
  }

  /** The movement tick moves exactly the living enemies, in order, and drops the dead. */
  lemma {:induction false} MarchAllMovesTheLiving(es: seq<Enemy>)
    ensures MarchAll(es) == Marched(Living(es))
  {
    if es != [] {
      MarchAllMovesTheLiving(es[1..]);
      assert Marched(es)[1..] == Marched(es[1..]);
      assert Marched(es) == [March(es[0])] + Marched(es)[1..];
      if es[0].hp > 0.0 {
        assert Living(es) == [es[0]] + Living(es[1..]);
      } else {
        assert Living(es) == Living(es[1..]);
      }
    }
  }

  /**
   * One enemy of the older explosion: the living primary target loses the whole attack, even
   * past 0, and is credited with at most its health; a living enemy in the blast loses half the
   * attack and is credited with at most its health; both are marked targeted. Nothing is killed
   * here: the older component pays per attack, not per kill.
   */
  function Shell(t: Tower, primary: nat, blast: set<nat>, e: Enemy): (h: Hit)
    ensures !h.killed
    ensures h.enemy == e.(hp := h.enemy.hp, isTargeted := h.enemy.isTargeted)
    ensures e.hp <= 0.0 || (e.id != primary && e.id !in blast) ==> h == Hit(e, 0.0, false)
    ensures e.hp > 0.0 && e.id == primary ==>
              h.enemy.isTargeted && h.enemy.hp == e.hp - t.attack && h.dealt == Max(Min(t.attack, e.hp), 0.0)
    ensures e.hp > 0.0 && e.id != primary && e.id in blast ==>
              h.enemy.isTargeted && h.enemy.hp == e.hp - t.attack / 2.0 && h.dealt == Min(t.attack / 2.0, e.hp)
    ensures t.attack >= 0.0 ==> 0.0 <= h.dealt <= e.hp - h.enemy.hp
  {
    if e.hp <= 0.0 then Hit(e, 0.0, false)
    else if e.id == primary then
      Hit(e.(isTargeted := true, hp := e.hp - t.attack), Max(Min(t.attack, e.hp), 0.0), false)
    else if e.id in blast then
      Hit(e.(isTargeted := true, hp := e.hp - t.attack / 2.0), Min(t.attack / 2.0, e.hp), false)
    else Hit(e, 0.0, false)
  }

  /**
   * One enemy of the older shot (every attack type but explosion): a target loses the attack,
   * clamped to its health and never below 0, is marked targeted, and a slower's target is
   * slowed and a gas spitter's poisoned, with the tower as source and `now` as start.
   */
  function Shot(t: Tower, targets: set<nat>, now: int, e: Enemy): (h: Hit)
    ensures !h.killed
    ensures e.id !in targets ==> h == Hit(e, 0.0, false)
    ensures h.enemy.id == e.id && h.enemy.x == e.x && h.enemy.y == e.y && h.enemy.kind == e.kind
    ensures e.id in targets ==>
              h.enemy.isTargeted && h.dealt == Min(t.attack, e.hp) && h.enemy.hp == Max(e.hp - h.dealt, 0.0)
    ensures e.id in targets && t.kind == "gasspitter" ==>
              h.enemy.isPoisoned && h.enemy.poisonSourceId == Some(t.id) && h.enemy.poisonStartTime == Some(now) &&
              (h.enemy.canRegen <==> !t.canStopRegen)
    ensures e.id in targets && t.kind == "slower" ==>
              h.enemy.isSlowed && h.enemy.slowSourceId == Some(t.id) && h.enemy.slowStartTime == Some(now) &&
              h.enemy.speed == (if Truthy(t.slowAmount)
                                then Max(e.speed * t.slowAmount.value, e.baseSpeed * t.slowAmount.value)
                                else e.speed)
    ensures t.kind != "slower" ==> h.enemy.speed == e.speed && h.enemy.isSlowed == e.isSlowed
  {
    if e.id !in targets then Hit(e, 0.0, false)
    else
      var actual := Min(t.attack, e.hp);
      var sa := if t.kind == "slower" && Truthy(t.slowAmount) then t.slowAmount.value else 0.0;
      var u := e.(isTargeted := true, hp := Max(e.hp - actual, 0.0),
                  speed := if t.kind == "slower" && Truthy(t.slowAmount) then Max(e.speed * sa, e.baseSpeed * sa) else e.speed);
      if t.kind == "gasspitter" then
        Hit(u.(isPoisoned := true, poisonSourceId := Some(t.id), poisonStartTime := Some(now),
               canRegen := !t.canStopRegen), actual, false)
      else if t.kind == "slower" then
        Hit(u.(isSlowed := true, slowSourceId := Some(t.id), slowStartTime := Some(now)), actual, false)
      else Hit(u, actual, false)
  }

  /** The per-enemy transform of an attack: the explosion around the first target, or the shot at the targets. */
  function Barrage(t: Tower, targets: seq<Enemy>, pool: seq<Enemy>, now: int): Enemy -> Hit
    requires targets != []
  {
    if t.attackType == Explosion then
      var primary := targets[0];
      var blast := BlastIds(pool, primary, t.explosionRadius);
      e => Shell(t, primary.id, blast, e)
    else
      var ids := TargetIds(targets);
      e => Shot(t, ids, now, e)
  }

  /**
   * The money one attack earns: an explosion pays a twelfth and a half of the damage it
   * credited, rounded down; then every tower, the mortar included (its type is never
   * "explosion"), is paid a tenth of its attack, rounded down.
   */
  function AttackPay(t: Tower, total: real): (m: int)
    ensures t.attack >= 0.0 && (t.attackType != Explosion || total <= 0.0) ==> m == (t.attack / 10.0).Floor
    ensures t.attack >= 0.0 && total >= 0.0 ==> m >= (t.attack / 10.0).Floor >= 0
  {
    (if t.attackType == Explosion then (Max(total, 0.0) / 12.5).Floor else 0) + (Max(t.attack, 0.0) / 10.0).Floor
  }

  /** When no hit credits more than the health it removes, the attack credits at most what the pool lost. */
  lemma {:induction false} DealtAtMostHealthLost(pool: seq<Enemy>, f: Enemy -> Hit)
    requires forall e :: e in pool ==> f(e).dealt <= e.hp - f(e).enemy.hp
    ensures Dealt(pool, f) <= HpSum(pool) - HpSum(Struck(pool, f))
  {
    if pool != [] {
      var init := pool[..|pool| - 1];
      assert forall e :: e in init ==> e in pool;
      DealtAtMostHealthLost(init, f);
      var s := Struck(pool, f);
      assert s[..|s| - 1] == Struck(init, f);
      assert pool[|pool| - 1] in pool;
    }
  }

  /**
   * The older explosion never credits more than the health it removes, and removes more when
   * it overkills: the primary target loses the whole attack, the credit stops at its health.
   */
  lemma ShellCreditsAtMostLost(pool: seq<Enemy>, t: Tower, targets: seq<Enemy>, now: int)
    requires targets != [] && t.attackType == Explosion && t.attack >= 0.0
    ensures var f := Barrage(t, targets, pool, now);
            Dealt(pool, f) <= HpSum(pool) - HpSum(Struck(pool, f))
  {
    DealtAtMostHealthLost(pool, Barrage(t, targets, pool, now));
  }

  /** The older shot credits exactly the health it removes, when its targets are not below 0. */
  lemma ShotConservesDamage(pool: seq<Enemy>, t: Tower, targets: seq<Enemy>, now: int)
    requires targets != [] && t.attackType != Explosion && t.attack >= 0.0
    requires forall e :: e in pool ==> e.hp >= 0.0
    ensures var f := Barrage(t, targets, pool, now);
            Dealt(pool, f) == HpSum(pool) - HpSum(Struck(pool, f))
  {
    DealtIsHealthLost(pool, Barrage(t, targets, pool, now));
  }

  /** How long the older slow lasts: 6 seconds, 3 at double speed, whatever tower cast it. */
  function SlowDuration(speedUp: bool): int {
    if speedUp then 3000 else 6000
  }

  /**
   * The older slow timer for one enemy: a tracked slow whose duration has passed is cleared and
   * the base speed restored; anything else is left alone. No tower is consulted.
   */
  function Thaw(e: Enemy, now: int, speedUp: bool): (r: Enemy)
    ensures !SlowTracked(r) || r == e
    ensures SlowTracked(e) && now - e.slowStartTime.value >= SlowDuration(speedUp) ==>
              r == e.(speed := e.baseSpeed, isSlowed := false, slowSourceId := None, slowStartTime := None)
    ensures !(SlowTracked(e) && now - e.slowStartTime.value >= SlowDuration(speedUp)) ==> r == e
  {
    if !e.isSlowed || e.slowSourceId.None? || !Present(e.slowStartTime) then e
    else if now - e.slowStartTime.value >= SlowDuration(speedUp) then
      e.(speed := e.baseSpeed, isSlowed := false, slowSourceId := None, slowStartTime := None)
    else e
  }

  /** A slow that has been thawed stays thawed: a later tick changes nothing. */
  lemma ThawSettles(e: Enemy, now: int, later: int, speedUp: bool, again: bool)
    requires SlowTracked(e) && now - e.slowStartTime.value >= SlowDuration(speedUp)
    ensures Thaw(Thaw(e, now, speedUp), later, again) == Thaw(e, now, speedUp)
    ensures Thaw(e, now, speedUp).speed == e.baseSpeed
  {
  }

  /** The older slow timer over the pool. */
  function Thawed(es: seq<Enemy>, now: int, speedUp: bool): (r: seq<Enemy>)
    ensures |r| == |es|
    ensures forall i :: 0 <= i < |es| ==> r[i] == Thaw(es[i], now, speedUp)
  {
    seq(|es|, i requires 0 <= i < |es| => Thaw(es[i], now, speedUp))
  }

  /** The older speed flag as a speed setting of the shared timers: double speed or normal. */
  function Gear(speedUp: bool): (g: int)
    ensures SpeedFactor(g) == if speedUp then 2.0 else 1.0
  {
    if speedUp then 1 else 0
  }

  /**
   * The older poison timer deals the same dose at both speeds: four times the tower's poison
   * damage over 400 ticks, one hundredth per tick.
   */
  lemma PoisonDoseIsSpeedIndependent(poisonDamage: real, speedUp: bool)
    ensures PoisonDuration(Gear(speedUp)) / PoisonTickRate(Gear(speedUp)) == 400.0
    ensures PoisonPerTick(poisonDamage, Gear(speedUp)) * 400.0 == 4.0 * poisonDamage
  {
  }
}
